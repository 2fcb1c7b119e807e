/** Subject ids and the `locker://` references that sealed events carry. */
module StorageRef {
  import opened Wrappers
  import opened Decimal

  const SCHEME := "locker://"

  predicate IsAlnum(c: char) {
    'a' <= c <= 'z' || 'A' <= c <= 'Z' || '0' <= c <= '9'
  }

  /** A flat slug: alphanumeric first, then alphanumerics, `_` and `-`; at most 254 characters. */
  predicate ValidSubjectID(s: string) {
    && 1 <= |s| <= 254
    && IsAlnum(s[0])
    && forall i :: 1 <= i < |s| ==> IsAlnum(s[i]) || s[i] == '_' || s[i] == '-'
  }

  /** The reference the worker prints for an entry. */
  function Format(subject: string, index: nat): string {
    SCHEME + subject + "/entry/" + FormatInt(index)
  }

  function CutPrefix(s: string, prefix: string): Option<string> {
    if prefix <= s then Some(s[|prefix|..]) else None
  }

  /** The position of the first slash, or the length when there is none. */
  function FirstSlash(s: string): (i: nat)
    ensures i <= |s|
    ensures i < |s| ==> s[i] == '/'
    ensures forall j :: 0 <= j < i ==> s[j] != '/'
  {
    if s == [] || s[0] == '/' then 0 else 1 + FirstSlash(s[1..])
  }

  /** Splits at slashes into at most `n` parts; the last part keeps any further slashes. */
  function SplitN(s: string, n: nat): seq<string>
    requires n >= 1
    decreases n
  {
    var i := FirstSlash(s);
    if n == 1 || i == |s| then [s] else [s[..i]] + SplitN(s[i + 1..], n - 1)
  }

  /** The path the driver requests, or nothing when it rejects the reference. */
  function DriverPath(source: string): Option<string> {
    match CutPrefix(source, SCHEME)
    case None => None
    case Some(path) =>
      var parts := SplitN(path, 3);
      if |parts| < 3 || parts[1] != "entry" then None else Some(path)
  }

  /** The graph loader drops the scheme without checking it. */
  function LoaderPath(source: string): string
    requires |source| >= |SCHEME|
  {
    source[|SCHEME|..]
  }

  /** What the locker's entry route makes of a request path: subject and non-negative 64-bit index. */
  function Route(path: string): Option<(string, nat)> {
    var parts := SplitN(path, 3);
    if |parts| < 3 || parts[1] != "entry" then
      None
    else
      var index := ParseInt(parts[2]);
      if index.err != NoError || index.value < 0 then None else Some((parts[0], index.value))
  }

  lemma FirstSlashAt(before: string, after: string)
    requires forall c :: c in before ==> c != '/'
    ensures FirstSlash(before + "/" + after) == |before|
  {
    var s := before + "/" + after;
    assert s[|before|] == '/';
    forall j | 0 <= j < |before| ensures s[j] != '/' {
      assert s[j] == before[j] && before[j] in before;
    }
  }

  lemma SplitFirst(before: string, after: string, n: nat)
    requires n >= 2 && forall c :: c in before ==> c != '/'
    ensures SplitN(before + "/" + after, n) == [before] + SplitN(after, n - 1)
  {
    var s := before + "/" + after;
    FirstSlashAt(before, after);
    assert s[..|before|] == before && s[|before| + 1..] == after;
  }

  lemma SplitPath(subject: string, index: string)
    requires forall c :: c in subject ==> c != '/'
    ensures SplitN(subject + "/entry/" + index, 3) == [subject, "entry", index]
  {
    var tail := "entry" + "/" + index;
    assert subject + "/entry/" + index == subject + "/" + tail;
    SplitFirst(subject, tail, 3);
    SplitFirst("entry", index, 2);
  }

  lemma CutScheme(path: string)
    ensures CutPrefix(SCHEME + path, SCHEME) == Some(path)
  {
    assert (SCHEME + path)[|SCHEME|..] == path;
  }

  /**
   * Every printed reference is accepted by the driver, the driver and the loader ask the
   * locker for the same path, and the locker's route reads back the subject and the index.
   */
  lemma RefRoundTrip(subject: string, index: nat)
    requires ValidSubjectID(subject) && index <= MAX_INT64
    ensures |Format(subject, index)| >= |SCHEME|
    ensures DriverPath(Format(subject, index)) == Some(LoaderPath(Format(subject, index)))
    ensures Route(LoaderPath(Format(subject, index))) == Some((subject, index))
  {
    var path := subject + "/entry/" + FormatInt(index);
    assert Format(subject, index) == SCHEME + path;
    CutScheme(path);
    SplitPath(subject, FormatInt(index));
    FormatParse(index);
  }

  /** Two entries never share a reference. */
  lemma RefInjective(s: string, i: nat, t: string, j: nat)
    requires ValidSubjectID(s) && ValidSubjectID(t) && i <= MAX_INT64 && j <= MAX_INT64
    requires Format(s, i) == Format(t, j)
    ensures s == t && i == j
  {
    RefRoundTrip(s, i);
    RefRoundTrip(t, j);
  }
}
