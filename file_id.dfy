/**
 * The client-side document handle: `hash32` and `genId` (called
 * `generateFileId` in the beta form, which has the same code). An id is
 * `fid_<hex hash of the normalised URL>_<sanitised last path segment>`.
 */
module FileId {
  import opened Wrappers
  import opened JsText
  import opened Numerals

  /** 2^32: `>>> 0` reduces a number modulo this. */
  const Modulus: nat := 0x1_0000_0000

  /**
   * The value of `h` once the loop of `hash32` has consumed `s`: a left fold
   * of the step `h = (h * 31 + s.charCodeAt(i)) >>> 0`, starting from 0,
   * and so always an unsigned 32-bit value.
   */
  function Hash(s: JsString): (h: nat)
    ensures h < Modulus
  {
    if s == [] then 0 else (Hash(s[..|s| - 1]) * 31 + s[|s| - 1]) % Modulus
  }

  /** The same base-31 polynomial in the code units, never reduced. */
  function Polynomial(s: JsString): nat {
    if s == [] then 0 else Polynomial(s[..|s| - 1]) * 31 + s[|s| - 1]
  }

  /** The empty string hashes to 0. */
  lemma HashEmpty()
    ensures Hash([]) == 0
  {
  }

  /** Hashing one more code unit is one Horner step modulo 2^32. */
  lemma HashAppend(s: JsString, c: CodeUnit)
    ensures Hash(s + [c]) == (Hash(s) * 31 + c) % Modulus
  {
    assert (s + [c])[..|s|] == s;
  }

  lemma ModAddMultiple(k: nat, x: nat)
    ensures (k * Modulus + x) % Modulus == x % Modulus
  {
  }

  /** Reducing before a Horner step gives the same residue as reducing after it. */
  lemma ModStep(a: nat, c: nat)
    ensures ((a % Modulus) * 31 + c) % Modulus == (a * 31 + c) % Modulus
  {
    var q := a / Modulus;
    assert a * 31 + c == (q * 31) * Modulus + ((a % Modulus) * 31 + c);
    ModAddMultiple(q * 31, (a % Modulus) * 31 + c);
  }

  /**
   * Reducing after every step (as `>>> 0` does) is the same as reducing the
   * whole polynomial once: the hash is the polynomial hash modulo 2^32.
   */
  lemma {:induction false} HashIsPolynomialMod(s: JsString)
    ensures Hash(s) == Polynomial(s) % Modulus
  {
    if s != [] {
      HashIsPolynomialMod(s[..|s| - 1]);
      ModStep(Polynomial(s[..|s| - 1]), s[|s| - 1]);
    }
  }

  /**
   * `hash32(s)`. The loop's `h * 31 + code` stays below 2^53, so the
   * JavaScript number arithmetic is exact and `>>> 0` is reduction modulo 2^32.
   */
  method Hash32(s: JsString) returns (hex: JsString)
    ensures hex == Hex(Hash(s))
    ensures 1 <= |hex| <= 8
    ensures forall i :: 0 <= i < |hex| ==> IsLowerHexUnit(hex[i])
    ensures s == [] ==> hex == FromString("0")
  {
    var h: nat := 0;
    for i := 0 to |s|
      invariant h == Hash(s[..i])
      invariant h < Modulus
    {
      assert h * 31 + s[i] < 0x20_0000_0000_0000;
      assert s[..i + 1][..i] == s[..i];
      h := (h * 31 + s[i]) % Modulus;
    }
    assert s[..|s|] == s;
    HexOf32Bits(h);
    hex := Hex(h);
  }

  /**
   * `url.trim().toLowerCase()`: the trimmed URL, unit for unit, with every
   * ASCII capital moved to its small letter; no capital is left, and
   * neither trimming nor lower-casing it again changes it.
   */
  function Normalize(url: JsString): (norm: JsString)
    ensures |norm| == |Trim(url)| <= |url|
    ensures forall i :: 0 <= i < |norm| ==> norm[i] == Trim(url)[i] || norm[i] as int == Trim(url)[i] as int + 0x20
    ensures forall i :: 0 <= i < |norm| ==> !IsAsciiUpper(Trim(url)[i]) ==> norm[i] == Trim(url)[i]
    ensures forall i :: 0 <= i < |norm| ==> !IsAsciiUpper(norm[i])
    ensures IsTrimmed(norm) && Trim(norm) == norm && ToLower(norm) == norm
  {
    var t := Trim(url);
    LowerKeepsTrimmed(t);
    ToLowerIdempotent(t);
    TrimOfTrimmed(ToLower(t));
    ToLower(t)
  }

  /** Normalising twice is normalising once. */
  lemma NormalizeIdempotent(url: JsString)
    ensures Normalize(Normalize(url)) == Normalize(url)
  {
    var norm := Normalize(url);
    assert Trim(norm) == norm;
  }

  /** The fallback name `'file'`. */
  const DefaultName: JsString := FromString("file")

  /** The fallback name has four units, all of them word characters. */
  lemma DefaultNameIsWord()
    ensures |DefaultName| == 4
    ensures forall i :: 0 <= i < |DefaultName| ==> IsWordUnit(DefaultName[i])
  {
    assert DefaultName == [0x66, 0x69, 0x6C, 0x65];
  }

  /**
   * `s.split('/').pop()?.replace(/\W/g, '_') || 'file'`: the last path
   * segment with every non-word code unit turned into `_`, or "file" when
   * that segment is empty. Never empty and made of word characters only.
   */
  function BaseName(s: JsString): (base: JsString)
    ensures |base| >= 1
    ensures forall i :: 0 <= i < |base| ==> IsWordUnit(base[i])
    ensures LastSegment(s) == [] ==> base == DefaultName
    ensures LastSegment(s) != [] ==> |base| == |LastSegment(s)|
  {
    DefaultNameIsWord();
    var replaced := ReplaceNonWord(LastSegment(s));
    if replaced == [] then DefaultName else replaced
  }

  /** The base name keeps the segment's length and its word characters. */
  lemma BaseNameOfSegment(s: JsString)
    requires LastSegment(s) != []
    ensures |BaseName(s)| == |LastSegment(s)|
    ensures forall i :: 0 <= i < |LastSegment(s)| ==>
      BaseName(s)[i] == if IsWordUnit(LastSegment(s)[i]) then LastSegment(s)[i] else Underscore
  {
  }

  /** An empty last segment (empty input, or a trailing slash) gives "file". */
  lemma BaseNameDefault(s: JsString)
    requires LastSegment(s) == []
    ensures BaseName(s) == DefaultName
  {
  }

  const Prefix: JsString := FromString("fid_")

  /**
   * `` `fid_${tag}_${base}` ``: the prefix, then the tag, one `_`, and the
   * base name at the end.
   */
  function Compose(tag: JsString, base: JsString): (id: JsString)
    ensures |id| == |Prefix| + |tag| + 1 + |base|
    ensures id[..|Prefix|] == Prefix
    ensures id[|Prefix|..|Prefix| + |tag|] == tag
    ensures id[|Prefix| + |tag|] == Underscore
    ensures id[|Prefix| + |tag| + 1..] == base
  {
    Prefix + tag + [Underscore] + base
  }

  /**
   * Reads an id back into its tag and base name: after `fid_`, the tag runs
   * up to the first `_`.
   */
  function SplitId(id: JsString): Option<(JsString, JsString)> {
    if |id| < 4 || id[..4] != Prefix then None
    else
      var rest := id[4..];
      match IndexOf(rest, Underscore)
      case None => None
      case Some(k) => Some((rest[..k], rest[k + 1..]))
  }

  /** An id whose tag holds no `_` splits back into that tag and base. */
  lemma SplitCompose(tag: JsString, base: JsString)
    requires Underscore !in tag
    ensures SplitId(Compose(tag, base)) == Some((tag, base))
  {
    var id := Compose(tag, base);
    assert |Prefix| == 4;
    assert id[..4] == Prefix;
    var rest := id[4..];
    assert rest == tag + [Underscore] + base;
    IndexOfAfterFreePrefix(tag, Underscore, base);
    assert rest[..|tag|] == tag;
    assert rest[|tag| + 1..] == base;
  }

  /** The id `genId(url)` returns: the handle of the document behind `url`. */
  function IdOf(url: JsString): (id: JsString)
    ensures |id| > 5
    ensures SplitId(id) == Some((Hex(Hash(Normalize(url))), BaseName(Normalize(url))))
  {
    var norm := Normalize(url);
    SplitCompose(Hex(Hash(norm)), BaseName(norm));
    Compose(Hex(Hash(norm)), BaseName(norm))
  }

  /**
   * `genId(url)`, computing the hash with the loop of `hash32`; this is the
   * id the handlers store.
   */
  method GenId(url: JsString) returns (id: JsString)
    ensures id == IdOf(url)
  {
    var norm := Normalize(url);
    var hex := Hash32(norm);
    id := Compose(hex, BaseName(norm));
  }

  /** The id depends only on the trimmed, lower-cased URL. */
  lemma IdOfNormalized(url: JsString)
    ensures IdOf(url) == IdOf(Normalize(url))
  {
    NormalizeIdempotent(url);
  }

  /** Two URLs with the same id have the same hash and the same base name. */
  lemma IdOfDeterminesParts(u: JsString, v: JsString)
    requires IdOf(u) == IdOf(v)
    ensures Hash(Normalize(u)) == Hash(Normalize(v))
    ensures BaseName(Normalize(u)) == BaseName(Normalize(v))
  {
    ToStringInjective(Hash(Normalize(u)), Hash(Normalize(v)), 16);
  }
}
