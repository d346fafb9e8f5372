/** The market selector of src/data/v2/prefix.rs and the path segment it resolves to. */
module Prefix {

  /** `MarketPrefix`: which market a data request goes to. */
  datatype MarketPrefix = Stocks | Crypto

  /** The `Display` mapping: the versioned path segment of each market.
      Every segment starts and ends with a slash, so that
      segment ++ symbol ++ "/suffix" is a well-formed path. */
  function Display(p: MarketPrefix): (s: string)
    ensures 3 <= |s| && s[0] == '/' && s[|s| - 1] == '/'
  {
    match p
    case Stocks => "/v2/stocks/"
    case Crypto => "/v1beta3/crypto/us/"
  }

  /** `Default for MarketPrefix`: the stock market. */
  function Default(): (p: MarketPrefix)
    ensures Display(p) == "/v2/stocks/"
  {
    Stocks
  }

  /** The name serde's derived `Serialize` gives a unit variant: the variant's own name. */
  function SerdeName(p: MarketPrefix): (name: string)
    ensures |name| > 0
  {
    match p
    case Stocks => "Stocks"
    case Crypto => "Crypto"
  }

  /** The two segments are told apart by their third character. Hence no
      path can start with both, and a path that starts with a segment
      determines the market and the rest of the path. */
  lemma DisplayUnambiguous(p: MarketPrefix, q: MarketPrefix, s: string, t: string)
    requires Display(p) + s == Display(q) + t
    ensures p == q && s == t
  {
    assert (Display(p) + s)[2] == Display(p)[2];
    assert (Display(q) + t)[2] == Display(q)[2];
    assert s == (Display(p) + s)[|Display(p)|..];
    assert t == (Display(q) + t)[|Display(q)|..];
  }

  /** `Display` is injective: distinct markets never share a path segment. */
  lemma DisplayInjective(p: MarketPrefix, q: MarketPrefix)
    ensures Display(p) == Display(q) <==> p == q
  {
    if Display(p) == Display(q) {
      DisplayUnambiguous(p, q, "", "");
    }
  }

  /** The serialised variant names are injective too, so the query's `prefix`
      field determines the market. */
  lemma SerdeNameInjective(p: MarketPrefix, q: MarketPrefix)
    ensures SerdeName(p) == SerdeName(q) <==> p == q
  {
    if p != q {
      assert SerdeName(p)[0] != SerdeName(q)[0];
    }
  }
}
