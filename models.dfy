/**
 * The Company record (src/models.py).  A Company is never changed after it
 * is built, so it is a value; `NewCompany` plays the part of the dataclass
 * constructor together with `__post_init__`, which normalises the domain.
 */
module Models {
  import opened Wrappers
  import opened Text

  /** The default value of the `source` field. */
  const DefaultSource: string := "theirstack"

  datatype Company = Company(name: string, domain: string, source: string, discoveredAt: Option<string>)

  /** Removes one `http://` prefix, or else one `https://` prefix. */
  function StripProtocol(s: string): (r: string)
    ensures |r| <= |s| && r == s[|s| - |r|..]
  {
    if StartsWith(s, "http://") then s[7..]
    else if StartsWith(s, "https://") then s[8..]
    else s
  }

  /**
   * The domain normalisation of `__post_init__`: an empty domain is kept;
   * any other is lower-cased and stripped, loses one protocol prefix and
   * then every trailing slash.
   */
  function Normalize(domain: string): string {
    if domain == "" then domain
    else RStripChar(StripProtocol(LowerStrip(domain)), '/')
  }

  /** A normalised domain is no longer than the input, has no upper-case letter and no trailing slash. */
  lemma NormalizeShape(domain: string)
    ensures var r := Normalize(domain);
      && |r| <= |domain| && NoUpper(r)
      && (r == [] || r[|r| - 1] != '/')
  {
    if domain != "" {
      var s := LowerStrip(domain);
      LowerStripSlice(domain);
      var p := StripProtocol(s);
      var r := RStripChar(p, '/');
      RStripCharShape(p, '/');
      assert IsSlice(r, s) by {
        assert r == s[|s| - |p|..|s| - |p| + |r|];
      }
      SliceNoUpper(r, s);
    }
  }

  /**
   * Builds a Company the way the dataclass does: `name`, `source` and
   * `discoveredAt` are stored as given and `domain` is normalised.
   */
  function NewCompany(name: string, domain: string, source: string := DefaultSource,
                      discoveredAt: Option<string> := None): (c: Company)
    ensures c.name == name && c.source == source && c.discoveredAt == discoveredAt
    ensures c.domain == Normalize(domain)
    ensures |c.domain| <= |domain| && NoUpper(c.domain)
  {
    NormalizeShape(domain);
    Company(name, Normalize(domain), source, discoveredAt)
  }

  /** `r` is `s[off..]` once a run of trailing slashes is cut off. */
  predicate RemainsAfter(r: string, s: string, off: nat) {
    off + |r| <= |s| && s[off..off + |r|] == r &&
    forall i :: off + |r| <= i < |s| ==> s[i] == '/'
  }

  /**
   * What normalisation removes from the lower-cased, stripped domain:
   * exactly one protocol prefix (`http://` is tested first) or none,
   * and the whole run of trailing slashes, nothing else.
   */
  lemma NormalizeRemovesOnePrefix(domain: string)
    requires domain != ""
    ensures var s, r := LowerStrip(domain), Normalize(domain);
      && (StartsWith(s, "http://") ==> RemainsAfter(r, s, 7))
      && (!StartsWith(s, "http://") && StartsWith(s, "https://") ==> RemainsAfter(r, s, 8))
      && (!StartsWith(s, "http://") && !StartsWith(s, "https://") ==> RemainsAfter(r, s, 0))
  {
    var s := LowerStrip(domain);
    var p := StripProtocol(s);
    assert Normalize(domain) == RStripChar(p, '/');
    RemainsAfterRStrip(s, |s| - |p|);
  }

  /** Cutting the trailing slashes off `s[off..]` leaves what `RemainsAfter` describes. */
  lemma RemainsAfterRStrip(s: string, off: nat)
    requires off <= |s|
    ensures RemainsAfter(RStripChar(s[off..], '/'), s, off)
  {
    var p := s[off..];
    var r := RStripChar(p, '/');
    RStripCharShape(p, '/');
    assert s[off..off + |r|] == p[..|r|];
    forall i | off + |r| <= i < |s| ensures s[i] == '/' {
      assert s[i] == p[i - off];
    }
  }

  /** A string that normalisation would not touch is its own normal form. */
  lemma NormalizeFixedPoint(x: string)
    requires NoUpper(x)
    requires Trimmed(x) && (x == [] || x[|x| - 1] != '/')
    requires !StartsWith(x, "http://") && !StartsWith(x, "https://")
    ensures Normalize(x) == x
  {
    if x != [] {
      LowerStripUnchanged(x);
      assert StripProtocol(LowerStrip(x)) == x;
    }
  }

  /**
   * Normalising twice changes nothing, provided the first result has no
   * surrounding whitespace and no protocol prefix left.
   */
  lemma NormalizeIdempotentWhenClean(domain: string)
    requires var r := Normalize(domain);
      Trimmed(r) && !StartsWith(r, "http://") && !StartsWith(r, "https://")
    ensures Normalize(Normalize(domain)) == Normalize(domain)
  {
    NormalizeShape(domain);
    NormalizeFixedPoint(Normalize(domain));
  }
}
