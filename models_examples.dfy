/**
 * Worked examples of the domain normalisation in src/models.py,
 * computed one step at a time.
 */
module ModelsExamples {
  import opened Wrappers
  import opened Text
  import opened Models

  /** Normalisation taken one step at a time. */
  lemma NormalizeBySteps(domain: string, s: string, p: string, r: string)
    requires domain != "" && LowerStrip(domain) == s
    requires StripProtocol(s) == p && RStripChar(p, '/') == r
    ensures Normalize(domain) == r
  {
  }

  // Each step below is its own lemma: the solver handles one string
  // literal computation at a time far better than several at once.

  lemma DoublePrefixKey() ensures LowerStrip("https://http://a") == "https://http://a" {
    LowerStripUnchanged("https://http://a");
  }

  lemma DoublePrefixProtocol() ensures StripProtocol("https://http://a") == "http://a" {
    DiffersAt("https://http://a", "http://", 4);
  }

  lemma DoublePrefixSlashes() ensures RStripChar("http://a", '/') == "http://a" {
  }

  lemma HttpKey() ensures LowerStrip("http://a") == "http://a" {
    LowerStripUnchanged("http://a");
  }

  lemma HttpProtocol() ensures StripProtocol("http://a") == "a" {
  }

  lemma PlainSlashes() ensures RStripChar("a", '/') == "a" {
  }

  lemma SpaceSlashKey() ensures LowerStrip("a /") == "a /" {
    LowerStripUnchanged("a /");
  }

  lemma SpaceSlashProtocol() ensures StripProtocol("a /") == "a /" {
    DiffersAt("a /", "http://", 0);
    DiffersAt("a /", "https://", 0);
  }

  lemma SpaceSlashSlashes() ensures RStripChar("a /", '/') == "a " {
    assert RStripChar("a /", '/') == RStripChar("a ", '/');
  }

  lemma SpaceKey() ensures LowerStrip("a ") == "a" {
    assert Lower("a ") == "a ";
    assert LStrip("a ") == "a ";
    assert RStrip("a ") == RStrip("a");
  }

  lemma PlainProtocol() ensures StripProtocol("a") == "a" {
    DiffersAt("a", "http://", 0);
    DiffersAt("a", "https://", 0);
  }

  lemma AcmeLower() ensures Lower("HTTPS://Acme.com/") == "https://acme.com/" {
  }

  lemma AcmeStrip() ensures Strip("https://acme.com/") == "https://acme.com/" {
    StripUnchanged("https://acme.com/");
  }

  lemma AcmeKey() ensures LowerStrip("HTTPS://Acme.com/") == "https://acme.com/" {
    AcmeLower();
    AcmeStrip();
  }

  lemma AcmeProtocol() ensures StripProtocol("https://acme.com/") == "acme.com/" {
    DiffersAt("https://acme.com/", "http://", 4);
    assert StartsWith("https://acme.com/", "https://");
  }

  lemma AcmeSlashes() ensures RStripChar("acme.com/", '/') == "acme.com" {
    assert RStripChar("acme.com/", '/') == RStripChar("acme.com", '/');
  }

  /** Only the outer of two protocol prefixes is removed. */
  lemma NormalizeKeepsSecondPrefix()
    ensures Normalize("https://http://a") == "http://a"
  {
    DoublePrefixKey();
    DoublePrefixProtocol();
    DoublePrefixSlashes();
    NormalizeBySteps("https://http://a", "https://http://a", "http://a", "http://a");
  }

  /** Removing trailing slashes can uncover whitespace, which is then kept. */
  lemma NormalizeKeepsUncoveredSpace()
    ensures Normalize("a /") == "a "
  {
    SpaceSlashKey();
    SpaceSlashProtocol();
    SpaceSlashSlashes();
    NormalizeBySteps("a /", "a /", "a /", "a ");
  }

  /**
   * Normalisation is not idempotent: a second protocol prefix, or
   * whitespace in front of trailing slashes, survives the first pass.
   */
  lemma NormalizeNotIdempotent()
    ensures Normalize(Normalize("https://http://a")) == "a" != Normalize("https://http://a")
    ensures Normalize(Normalize("a /")) == "a" != Normalize("a /")
  {
    NormalizeKeepsSecondPrefix();
    HttpKey();
    HttpProtocol();
    PlainSlashes();
    NormalizeBySteps("http://a", "http://a", "a", "a");
    NormalizeKeepsUncoveredSpace();
    SpaceKey();
    PlainProtocol();
    NormalizeBySteps("a ", "a", "a", "a");
  }

  /** `Company(name="Acme", domain="HTTPS://Acme.com/")` stores `acme.com`. */
  lemma NormalizeExample()
    ensures NewCompany("Acme", "HTTPS://Acme.com/") == Company("Acme", "acme.com", "theirstack", None)
  {
    AcmeKey();
    AcmeProtocol();
    AcmeSlashes();
    NormalizeBySteps("HTTPS://Acme.com/", "https://acme.com/", "acme.com/", "acme.com");
  }
}
