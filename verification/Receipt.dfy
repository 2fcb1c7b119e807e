/** Receipts: submitted content wrapped as a `gemara-receipt/v1` in-toto statement. */
module Receipts {
  import opened Wrappers
  import Base64

  /** JSON values; numbers, booleans and null are kept as their text. */
  datatype Json = Other(text: string) | Str(s: string) | Arr(items: seq<Json>) | Obj(fields: map<string, Json>)

  datatype Publisher = Publisher(issuer: string, sub: string)

  /** JSON canonicalisation (RFC 8785); nothing when the input is not JSON. Uninterpreted. */
  const Canonicalize: Bytes -> Option<Bytes>
  /** JSON text of a value, and its parser. Uninterpreted. */
  const MarshalJson: Json -> Bytes
  const UnmarshalJson: Bytes -> Option<Json>
  /** `sha256:` and the URL-safe base64 SHA-256 of canonical content. Uninterpreted. */
  const ContentDigestOf: Bytes -> string

  /**
   * Values made of strings, arrays and objects only. Canonical text keeps these apart; it does not
   * keep the spellings of a number apart, so nothing is assumed of values with one in them.
   */
  predicate Plain(j: Json) {
    match j
    case Other(_) => false
    case Str(_) => true
    case Arr(items) => forall i :: 0 <= i < |items| ==> Plain(items[i])
    case Obj(fields) => forall name :: name in fields ==> Plain(fields[name])
  }

  /** What is assumed of them: canonical text is a fixed point, and that of a plain object parses back to it. */
  ghost predicate Laws() {
    && (forall b :: Canonicalize(b).Some? ==> Canonicalize(Canonicalize(b).value) == Canonicalize(b))
    && (forall j: Json :: j.Obj? && Plain(j) ==>
          Canonicalize(MarshalJson(j)).Some? && UnmarshalJson(Canonicalize(MarshalJson(j)).value) == Some(j))
  }

  const RECEIPT_TYPE := "gemara-receipt/v1"
  const STATEMENT_TYPE := "https://in-toto.io/Statement/v1"

  function Predicate(canonical: Bytes, p: Publisher, artifactType: string, receivedAt: string): Json {
    Obj(map["content" := Str(Base64.Encode(canonical)),
            "contentDigest" := Str(ContentDigestOf(canonical)),
            "publisher" := Obj(map["issuer" := Str(p.issuer), "sub" := Str(p.sub)]),
            "artifactType" := Str(artifactType),
            "receivedAt" := Str(receivedAt)])
  }

  /** Unpopulated protobuf fields are not printed, so an empty subject leaves no name. */
  function Statement(subject: string, predicate_: Json): Json {
    Obj(map["type" := Str(STATEMENT_TYPE),
            "subject" := Arr([Obj(if subject == "" then map[] else map["name" := Str(subject)])]),
            "predicate_type" := Str(RECEIPT_TYPE),
            "predicate" := predicate_])
  }

  /** Receipts are made of strings, arrays and objects only. */
  lemma StatementIsPlain(subject: string, canonical: Bytes, p: Publisher, artifactType: string, receivedAt: string)
    ensures Plain(Statement(subject, Predicate(canonical, p, artifactType, receivedAt)))
  {
    var names := Obj(if subject == "" then map[] else map["name" := Str(subject)]);
    assert Plain(names) && Plain(Arr([names]));
    assert Plain(Obj(map["issuer" := Str(p.issuer), "sub" := Str(p.sub)]));
    assert Plain(Predicate(canonical, p, artifactType, receivedAt));
  }

  /** Wraps content for one subject; the clock reading is a parameter. */
  function Wrap(content: Bytes, p: Publisher, subject: string, artifactType: string, receivedAt: string): Option<Bytes>
  {
    match Canonicalize(content)
    case None => None
    case Some(canonical) =>
      Canonicalize(MarshalJson(Statement(subject, Predicate(canonical, p, artifactType, receivedAt))))
  }

  datatype UnwrapError = NotJson | NoPredicateType | NoPredicate | NoPublisher | UnknownType | NoContent | BadContent

  datatype Unwrapped = Unwrapped(content: Bytes, publisher: Publisher, format: string)

  function Field(j: Json, name: string): Option<Json> {
    if j.Obj? && name in j.fields then Some(j.fields[name]) else None
  }

  function StrField(j: Json, name: string): Option<string> {
    match Field(j, name)
    case Some(Str(s)) => Some(s)
    case _ => None
  }

  function ExtractPublisher(predicate_: Json): Option<Publisher> {
    match Field(predicate_, "publisher")
    case Some(p) =>
      (match (StrField(p, "issuer"), StrField(p, "sub"))
       case (Some(issuer), Some(sub)) => Some(Publisher(issuer, sub))
       case _ => None)
    case None => None
  }

  function UnwrapContent(entry: Bytes): Result<Unwrapped, UnwrapError> {
    match UnmarshalJson(entry)
    case None => Err(NotJson)
    case Some(raw) =>
      if !raw.Obj? then Err(NotJson) else
      match (StrField(raw, "predicate_type"), Field(raw, "predicate"))
      case (None, _) => Err(NoPredicateType)
      case (_, None) => Err(NoPredicate)
      case (Some(format), Some(predicate_)) => UnwrapPredicate(format, predicate_)
  }

  function UnwrapPredicate(format: string, predicate_: Json): Result<Unwrapped, UnwrapError> {
    if !predicate_.Obj? then Err(NoPredicate) else
    match ExtractPublisher(predicate_)
    case None => Err(NoPublisher)
    case Some(p) =>
      if format != RECEIPT_TYPE then Err(UnknownType) else
      match StrField(predicate_, "content")
      case None => Err(NoContent)
      case Some(text) =>
        match Base64.Decode(text)
        case None => Err(BadContent)
        case Some(content) => Ok(Unwrapped(content, p, format))
  }

  lemma PredicateUnwraps(canonical: Bytes, p: Publisher, artifactType: string, receivedAt: string)
    ensures UnwrapPredicate(RECEIPT_TYPE, Predicate(canonical, p, artifactType, receivedAt))
         == Ok(Unwrapped(canonical, p, RECEIPT_TYPE))
  {
    Base64.EncodeDecode(canonical);
    assert ExtractPublisher(Predicate(canonical, p, artifactType, receivedAt)) == Some(p);
  }

  /**
   * Wrapping succeeds exactly on JSON content, and unwrapping then returns the publisher and the
   * canonical form of the content, whose content digest is the one in the receipt.
   */
  lemma WrapUnwrap(content: Bytes, p: Publisher, subject: string, artifactType: string, receivedAt: string)
    requires Laws()
    ensures Wrap(content, p, subject, artifactType, receivedAt).Some? <==> Canonicalize(content).Some?
    ensures Canonicalize(content).Some? ==>
              UnwrapContent(Wrap(content, p, subject, artifactType, receivedAt).value)
              == Ok(Unwrapped(Canonicalize(content).value, p, RECEIPT_TYPE))
  {
    if Canonicalize(content).Some? {
      StatementIsPlain(subject, Canonicalize(content).value, p, artifactType, receivedAt);
      PredicateUnwraps(Canonicalize(content).value, p, artifactType, receivedAt);
    }
  }

  /** Re-submitting what a receipt unwraps to yields the very same receipt. */
  lemma RewrapIsStable(content: Bytes, p: Publisher, subject: string, artifactType: string, receivedAt: string)
    requires Laws() && Canonicalize(content).Some?
    ensures var r := Wrap(content, p, subject, artifactType, receivedAt);
            && r.Some? && UnwrapContent(r.value).Ok?
            && Wrap(UnwrapContent(r.value).value.content, p, subject, artifactType, receivedAt) == r
  {
    WrapUnwrap(content, p, subject, artifactType, receivedAt);
  }

  /** Content comes back byte for byte exactly when it was submitted in canonical form. */
  lemma ByteExactIff(content: Bytes, p: Publisher, subject: string, artifactType: string, receivedAt: string)
    requires Laws() && Canonicalize(content).Some?
    ensures Wrap(content, p, subject, artifactType, receivedAt).Some?
    ensures UnwrapContent(Wrap(content, p, subject, artifactType, receivedAt).value).Ok?
    ensures UnwrapContent(Wrap(content, p, subject, artifactType, receivedAt).value).value.content == content
       <==> Canonicalize(content) == Some(content)
  {
    WrapUnwrap(content, p, subject, artifactType, receivedAt);
  }

  lemma PredicateInjective(c1: Bytes, p1: Publisher, t1: string, at1: string, c2: Bytes, p2: Publisher, t2: string, at2: string)
    requires Predicate(c1, p1, t1, at1) == Predicate(c2, p2, t2, at2)
    ensures c1 == c2 && p1 == p2 && t1 == t2 && at1 == at2
  {
    var f1, f2 := Predicate(c1, p1, t1, at1).fields, Predicate(c2, p2, t2, at2).fields;
    assert f1["content"] == f2["content"] && f1["artifactType"] == f2["artifactType"];
    assert f1["receivedAt"] == f2["receivedAt"] && f1["publisher"] == f2["publisher"];
    assert f1["publisher"].fields["issuer"] == f2["publisher"].fields["issuer"];
    assert f1["publisher"].fields["sub"] == f2["publisher"].fields["sub"];
    Base64.EncodeInjective(c1, c2);
  }

  /**
   * Two submissions give one receipt, and so one sealed entry, exactly when canonical content,
   * publisher, subject, artifact type and the second of receipt all agree.
   */
  lemma SameReceiptIff(c1: Bytes, p1: Publisher, s1: string, t1: string, at1: string,
                       c2: Bytes, p2: Publisher, s2: string, t2: string, at2: string)
    requires Laws() && Canonicalize(c1).Some? && Canonicalize(c2).Some?
    ensures Wrap(c1, p1, s1, t1, at1) == Wrap(c2, p2, s2, t2, at2)
       <==> Canonicalize(c1) == Canonicalize(c2) && p1 == p2 && s1 == s2 && t1 == t2 && at1 == at2
  {
    var k1, k2 := Canonicalize(c1).value, Canonicalize(c2).value;
    var j1 := Statement(s1, Predicate(k1, p1, t1, at1));
    var j2 := Statement(s2, Predicate(k2, p2, t2, at2));
    StatementIsPlain(s1, k1, p1, t1, at1);
    StatementIsPlain(s2, k2, p2, t2, at2);
    if Wrap(c1, p1, s1, t1, at1) == Wrap(c2, p2, s2, t2, at2) {
      assert UnmarshalJson(Canonicalize(MarshalJson(j1)).value) == Some(j1);
      assert UnmarshalJson(Canonicalize(MarshalJson(j2)).value) == Some(j2);
      assert j1.fields["predicate"] == j2.fields["predicate"] && j1.fields["subject"] == j2.fields["subject"];
      PredicateInjective(k1, p1, t1, at1, k2, p2, t2, at2);
      var n1, n2 := j1.fields["subject"].items[0], j2.fields["subject"].items[0];
      assert n1 == n2;
      assert (s1 != "") == ("name" in n1.fields) && (s2 != "") == ("name" in n2.fields);
      if s1 != "" {
        assert n1.fields["name"] == n2.fields["name"];
      }
    }
  }
}
