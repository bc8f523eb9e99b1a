/** `get_filesize`: the unit chosen for the human-readable size of the file. Vim reports the
    size in bytes (`getfsize`), Python reads it with `float()`, and the loop divides by 1024
    while the running value is strictly above 1024. The model uses exact arithmetic. Division
    by 1024 is exact in binary floating point and `float()` is exact below 2^53 bytes, so there
    the comparisons are the same; above that the rounded size can change the index the loop
    reaches, but both indexes are past the four unit names and raise the same IndexError. */
module FileSize {

  const UNIT_NAMES: seq<string> := ["B", "KB", "MB", "GB"]

  function Pow1024(k: nat): (r: nat)
    ensures r >= 1
  {
    if k == 0 then 1 else 1024 * Pow1024(k - 1)
  }

  lemma {:induction false} Pow1024Grows(j: nat, k: nat)
    requires j < k
    ensures Pow1024(j) < Pow1024(k)
    decreases k
  {
    if j < k - 1 {
      Pow1024Grows(j, k - 1);
    }
  }

  /** The unit index the loop ends with: the least k with bytes <= 1024^(k+1). */
  function UnitIndex(bytes: int): (k: nat)
    requires bytes > 0
    ensures bytes <= Pow1024(k + 1)
    ensures k == 0 || Pow1024(k) < bytes
  {
    UnitIndexFrom(bytes, 0)
  }

  function UnitIndexFrom(bytes: int, k: nat): (r: nat)
    requires k == 0 || Pow1024(k) < bytes
    requires bytes > 0
    ensures bytes <= Pow1024(r + 1)
    ensures r == 0 || Pow1024(r) < bytes
    ensures r >= k
    decreases bytes - Pow1024(k)
  {
    if bytes <= Pow1024(k + 1) then k else UnitIndexFrom(bytes, k + 1)
  }

  /** Those two bounds pin the index down. */
  lemma UnitIndexUnique(bytes: int, k: nat)
    requires bytes > 0
    requires bytes <= Pow1024(k + 1)
    requires k == 0 || Pow1024(k) < bytes
    ensures k == UnitIndex(bytes)
  {
    var u := UnitIndex(bytes);
    if k < u {
      Pow1024Grows(k + 1, u);
    } else if u < k {
      Pow1024Grows(u + 1, k);
    }
  }

  /** What the format string receives: "0B" for an empty or missing file, a scaled value and a
      unit name, or an index past the four unit names (Python raises IndexError). */
  datatype SizeLabel = ZeroBytes | Scaled(value: real, unit: string) | UnitOutOfRange(index: nat)

  function Label(bytes: int): SizeLabel
  {
    if bytes <= 0 then ZeroBytes
    else
      var k := UnitIndex(bytes);
      if k < |UNIT_NAMES| then Scaled(bytes as real / Pow1024(k) as real, UNIT_NAMES[k])
      else UnitOutOfRange(k)
  }

  /** The loop of `get_filesize`. The running value `size` of the source is bytes / scale,
      so `size > 1024.0` is `bytes > 1024 * scale`, and `size / 1024.0` multiplies scale by 1024. */
  method GetFileSize(bytes: int) returns (r: SizeLabel)
    ensures r == Label(bytes)
  {
    if bytes <= 0 {
      return ZeroBytes;
    }
    var scale: nat := 1;
    var i: nat := 0;
    while bytes > 1024 * scale
      invariant scale == Pow1024(i)
      invariant i == 0 || Pow1024(i) < bytes
      decreases bytes - scale
    {
      scale := 1024 * scale;
      i := i + 1;
    }
    UnitIndexUnique(bytes, i);
    if i < |UNIT_NAMES| {
      r := Scaled(bytes as real / scale as real, UNIT_NAMES[i]);
    } else {
      r := UnitOutOfRange(i);
    }
  }

  /** Exactly the sizes above 1024^4 bytes (1 TiB) index past "GB". */
  lemma OutOfRangeIff(bytes: int)
    ensures Label(bytes).UnitOutOfRange? <==> bytes > Pow1024(4)
  {
    if bytes > 0 {
      var k := UnitIndex(bytes);
      if k > 4 {
        Pow1024Grows(4, k);
      } else if k < 3 {
        Pow1024Grows(k + 1, 4);
      }
    }
  }

  /** Exactly 1024 bytes stays in bytes; one more byte moves to kilobytes. */
  lemma KibibyteBoundary()
    ensures Label(1024) == Scaled(1024.0, "B")
    ensures Label(1025) == Scaled(1025.0 / 1024.0, "KB")
    ensures Label(1536) == Scaled(1.5, "KB")
  {
    UnitIndexUnique(1024, 0);
    UnitIndexUnique(1025, 1);
    UnitIndexUnique(1536, 1);
  }

  /** 1048576 bytes is 1024 kilobytes, not one megabyte. */
  lemma MebibyteBoundary()
    ensures Label(1048576) == Scaled(1024.0, "KB")
    ensures Label(1048577).unit == "MB"
  {
    UnitIndexUnique(1048576, 1);
    UnitIndexUnique(1048577, 2);
  }
}
