/** The icon tables of the plugin: the file types that have a thumbnail of their own, the
    remapping of file types to image names, and the merge of the user's custom icons. */
module Icons {
  import opened Wrappers

  const DEFAULT_THUMBNAILS: set<string> := {
    "c", "cr", "hs", "json", "nim", "ruby", "cpp", "go", "javascript", "markdown",
    "typescript", "python", "vim", "rust", "css", "html", "vue", "paco", "tex", "sh",
    "elixir", "cs", "f", "jsx", "tsx", "sql", "plsql", "ocaml"
  }

  const DEFAULT_REMAP: map<string, string> := map[
    "python" := "py",
    "markdown" := "md",
    "ruby" := "rb",
    "rust" := "rs",
    "typescript" := "ts",
    "javascript" := "js",
    "snippets" := "vim",
    "typescriptreact" := "ts",
    "javascriptreact" := "js",
    "ocaml" := "ml",
    "fortran" := "f"
  ]

  datatype IconTables = IconTables(hasThumbnail: set<string>, remap: map<string, string>)

  const DEFAULT_TABLES := IconTables(DEFAULT_THUMBNAILS, DEFAULT_REMAP)

  /** `has_thumbnail.update(thumbnails.values())` then `remap.update(thumbnails)`: the custom
      image names join the thumbnail set, the custom file types join the remap and win there. */
  function Merge(t: IconTables, custom: map<string, string>): (r: IconTables)
    ensures r.hasThumbnail == t.hasThumbnail + custom.Values
    ensures r.remap.Keys == t.remap.Keys + custom.Keys
    ensures forall k :: k in custom ==> r.remap[k] == custom[k]
    ensures forall k :: k in t.remap && k !in custom ==> r.remap[k] == t.remap[k]
  {
    IconTables(t.hasThumbnail + custom.Values, t.remap + custom)
  }

  /** The tables after module load: the defaults, merged with `g:vimsence_custom_icons` if set. */
  function Initial(custom: Option<map<string, string>>): IconTables
  {
    match custom
    case None => DEFAULT_TABLES
    case Some(c) => Merge(DEFAULT_TABLES, c)
  }

  /** A file type for which the known-icon case fires (`filetype in has_thumbnail or filetype in remap`). */
  predicate HasIcon(t: IconTables, filetype: string)
  {
    filetype in t.hasThumbnail || filetype in t.remap
  }

  /** The image name shown for a file type with an icon. */
  function IconFor(t: IconTables, filetype: string): string
  {
    if filetype in t.remap then t.remap[filetype] else filetype
  }

  /** A custom file type gets its custom image, even when a default remaps it. */
  lemma CustomIconWins(custom: map<string, string>, filetype: string)
    requires filetype in custom
    ensures HasIcon(Initial(Some(custom)), filetype)
    ensures IconFor(Initial(Some(custom)), filetype) == custom[filetype]
  {
  }

  /** The custom file types themselves do not join the thumbnail set: only the image names do. */
  lemma CustomKeysNotThumbnails(custom: map<string, string>, filetype: string)
    requires filetype !in DEFAULT_THUMBNAILS && filetype !in custom.Values
    ensures filetype !in Initial(Some(custom)).hasThumbnail
  {
  }

  /** Python files show the "py" image; a type with a thumbnail and no remap shows its own name. */
  lemma DefaultIcons()
    ensures HasIcon(DEFAULT_TABLES, "python") && IconFor(DEFAULT_TABLES, "python") == "py"
    ensures HasIcon(DEFAULT_TABLES, "go") && IconFor(DEFAULT_TABLES, "go") == "go"
    ensures HasIcon(DEFAULT_TABLES, "fortran") && IconFor(DEFAULT_TABLES, "fortran") == "f"
  {
  }
}
