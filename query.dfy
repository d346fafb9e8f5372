/** The stream of named fields that serde's derived `Serialize` hands to the
    URL-encoder for a list request: the part of `to_query(input)` that the
    request types decide (which keys, in which order, with which values).
    Rendering the stream as text is the encoder's business and is kept
    abstract as an `Encoder`. */
module Query {
  import opened Wrappers
  import opened Data
  import Prefix

  /** A serialised field value. `Null` is what an `Option` field that holds
      `None` hands to the encoder when it is not skipped. */
  datatype Value =
    | Variant(name: string)
    | Integer(n: int)
    | Time(t: Timestamp)
    | FeedValue(feed: Feed)
    | Text(s: string)
    | Null

  /** One serialised struct field under its serde name. */
  datatype Field = Field(key: string, value: Value)

  /** The encoder's failure (`serde_urlencoded::ser::Error`), opaque here. */
  datatype ConversionError = ConversionError(message: string)

  /** The URL-encoder: renders a field stream, or fails. */
  type Encoder = seq<Field> -> Result<string, ConversionError>

  /** The keys of a field stream, in order. */
  function Keys(fs: seq<Field>): seq<string>
  {
    seq(|fs|, i requires 0 <= i < |fs| => fs[i].key)
  }

  /** No key occurs twice. */
  predicate DistinctKeys(fs: seq<Field>)
  {
    forall i, j :: 0 <= i < j < |fs| ==> fs[i].key != fs[j].key
  }

  /** The value the stream carries under `key`, taken from its first field with that key. */
  function Get(fs: seq<Field>, key: string): (v: Option<Value>)
    ensures v.None? <==> key !in Keys(fs)
    ensures v.Some? ==>
      exists i :: 0 <= i < |fs| && fs[i] == Field(key, v.value) && forall j :: 0 <= j < i ==> fs[j].key != key
  {
    if fs == [] then None
    else if fs[0].key == key then
      assert Keys(fs)[0] == key;
      Some(fs[0].value)
    else
      var rest := Get(fs[1..], key);
      assert Keys(fs) == [fs[0].key] + Keys(fs[1..]);
      if rest.Some? then
        assert exists i :: 0 <= i < |fs| && fs[i] == Field(key, rest.value) && forall j :: 0 <= j < i ==> fs[j].key != key by {
          var i :| 0 <= i < |fs[1..]| && fs[1..][i] == Field(key, rest.value)
                   && forall j :: 0 <= j < i ==> fs[1..][j].key != key;
          assert fs[i + 1] == Field(key, rest.value);
        }
        rest
      else rest
  }

  /** In a stream without repeated keys every field is found under its own key. */
  lemma GetAt(fs: seq<Field>, i: nat)
    requires DistinctKeys(fs) && i < |fs|
    ensures Get(fs, fs[i].key) == Some(fs[i].value)
  {
    var v := Get(fs, fs[i].key);
    assert Keys(fs)[i] == fs[i].key;
    var k :| 0 <= k < |fs| && fs[k] == Field(fs[i].key, v.value) && forall j :: 0 <= j < k ==> fs[j].key != fs[i].key;
    assert k == i;
  }

  /** How an `Option<usize>` field serialises. */
  function OptionalInteger(o: Option<Usize>): (v: Value)
    ensures o.None? <==> v == Null
    ensures o.Some? ==> v == Integer(o.value)
  {
    match o
    case None => Null
    case Some(n) => Integer(n)
  }

  /** How an `Option<Feed>` field serialises. */
  function OptionalFeed(o: Option<Feed>): (v: Value)
    ensures o.None? <==> v == Null
    ensures o.Some? ==> v == FeedValue(o.value)
  {
    match o
    case None => Null
    case Some(f) => FeedValue(f)
  }

  /** How an `Option<String>` field serialises when it is not skipped. */
  function OptionalText(o: Option<string>): (v: Value)
    ensures o.None? <==> v == Null
    ensures o.Some? ==> v == Text(o.value)
  {
    match o
    case None => Null
    case Some(s) => Text(s)
  }

  /** `Ok(Some(to_query(input)?.into()))`: the list endpoints' `query`. It
      always emits a query when the encoder succeeds, and passes the
      encoder's error through otherwise; it never yields `Ok(None)`. */
  function AsQuery(encode: Encoder, fs: seq<Field>): (r: Result<Option<string>, ConversionError>)
    ensures r != Ok(None)
    ensures r.Ok? <==> encode(fs).Ok?
    ensures r.Ok? ==> r.value == Some(encode(fs).value)
    ensures r.Err? ==> r.error == encode(fs).error
  {
    match encode(fs)
    case Ok(s) => Ok(Some(s))
    case Err(e) => Err(e)
  }

  /** The serialised value of a field never loses information. */
  lemma OptionalInjective(a: Option<Usize>, b: Option<Usize>, f: Option<Feed>, g: Option<Feed>, s: Option<string>, t: Option<string>)
    ensures OptionalInteger(a) == OptionalInteger(b) ==> a == b
    ensures OptionalFeed(f) == OptionalFeed(g) ==> f == g
    ensures OptionalText(s) == OptionalText(t) ==> s == t
  {
  }
}
