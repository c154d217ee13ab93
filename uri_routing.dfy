/**
 * Classification of content URIs into the collection, a single item, or no
 * match. The provider's matcher is modelled as what it is built from: a list
 * of registrations (authority, path pattern, code), where a pattern segment is
 * either literal text or `#`, which matches a segment made only of digits.
 */
module UriRouting {
  import opened JournalContract

  /** Android's `Uri.getPathSegments` never yields an empty segment. */
  type Segment = s: string | |s| > 0 witness "a"

  /** A content URI: its authority and its path segments (scheme, query and fragment play no part in matching). */
  datatype Uri = Uri(authority: string, path: seq<Segment>)

  /** The provider's dispatch, as a closed type instead of integer codes. */
  datatype Match = Collection | Item(id: nat) | NoMatch

  // ---------------------------------------------------------------------------
  // Decimal digits: the `#` wildcard, `ContentUris.parseId` and `withAppendedId`

  predicate IsDigit(c: char)
  {
    '0' <= c <= '9'
  }

  predicate AllDigits(s: string)
  {
    forall i :: 0 <= i < |s| ==> IsDigit(s[i])
  }

  function DigitValue(c: char): nat
    requires IsDigit(c)
  {
    c as int - '0' as int
  }

  function DigitChar(d: nat): char
    requires d < 10
  {
    (d + '0' as int) as char
  }

  /** The value of a decimal numeral, most significant digit first (leading zeros allowed). */
  function ParseDecimal(s: string): nat
    requires AllDigits(s)
  {
    if s == [] then 0 else 10 * ParseDecimal(s[..|s| - 1]) + DigitValue(s[|s| - 1])
  }

  /** The canonical decimal numeral of `n`, as `String.valueOf` writes it. */
  function ShowDecimal(n: nat): (s: string)
    ensures |s| > 0 && AllDigits(s)
    ensures s[0] == '0' ==> n == 0
    ensures n < 10 <==> |s| == 1
  {
    if n < 10 then [DigitChar(n)] else ShowDecimal(n / 10) + [DigitChar(n % 10)]
  }

  /** Parsing the numeral that `ShowDecimal` writes gives the number back. */
  lemma {:induction false} ParseShowDecimal(n: nat)
    ensures ParseDecimal(ShowDecimal(n)) == n
  {
    var s := ShowDecimal(n);
    if n >= 10 {
      assert s[..|s| - 1] == ShowDecimal(n / 10);
      ParseShowDecimal(n / 10);
    }
  }

  /** A numeral of only zeros has value zero, so one that starts with a non-zero digit has a positive value. */
  lemma {:induction false} ParsePositive(s: string)
    requires AllDigits(s) && |s| > 0 && s[0] != '0'
    ensures ParseDecimal(s) > 0
  {
    if |s| > 1 {
      ParsePositive(s[..|s| - 1]);
    }
  }

  /** Writing back the value of a canonical numeral (no leading zero) gives the same numeral. */
  lemma {:induction false} ShowParseDecimal(s: string)
    requires AllDigits(s) && |s| > 0 && (s[0] != '0' || |s| == 1)
    ensures ShowDecimal(ParseDecimal(s)) == s
  {
    if |s| > 1 {
      var p := s[..|s| - 1];
      ParsePositive(p);
      ShowParseDecimal(p);
      var n := ParseDecimal(s);
      assert n / 10 == ParseDecimal(p) && n % 10 == DigitValue(s[|s| - 1]);
      assert s == p + [s[|s| - 1]];
    }
  }

  lemma ShowDecimalInjective(a: nat, b: nat)
    requires ShowDecimal(a) == ShowDecimal(b)
    ensures a == b
  {
    ParseShowDecimal(a);
    ParseShowDecimal(b);
  }

  // ---------------------------------------------------------------------------
  // The matcher's registrations

  /** `UriMatcher.NO_MATCH` and the provider's two codes. */
  const NoMatchCode: int := -1
  const ThoughtsCode: int := 100
  const ThoughtsIdCode: int := 101

  datatype PathPattern = Exact(text: string) | Number

  datatype Registration = Registration(authority: string, pattern: seq<PathPattern>, code: int)

  /** `thoughts` maps to THOUGHTS and `thoughts/#` to THOUGHTS_ID, both under the content authority. */
  const Registrations: seq<Registration> :=
    [ Registration(Authority, [Exact(PathThoughts)], ThoughtsCode),
      Registration(Authority, [Exact(PathThoughts), Number], ThoughtsIdCode) ]

  predicate SegmentMatches(p: PathPattern, seg: string)
  {
    match p
    case Exact(t) => seg == t
    case Number => AllDigits(seg)
  }

  predicate Accepts(reg: Registration, u: Uri)
  {
    && reg.authority == u.authority
    && |reg.pattern| == |u.path|
    && forall i :: 0 <= i < |u.path| ==> SegmentMatches(reg.pattern[i], u.path[i])
  }

  /** The index of the first registration that accepts `u`, or `|regs|` if none does. */
  function FirstAccepting(regs: seq<Registration>, u: Uri): (k: nat)
    ensures k <= |regs|
    ensures k < |regs| ==> Accepts(regs[k], u)
    ensures forall i :: 0 <= i < k ==> !Accepts(regs[i], u)
  {
    if regs == [] then 0
    else if Accepts(regs[0], u) then 0
    else 1 + FirstAccepting(regs[1..], u)
  }

  /** `sUriMatcher.match(uri)`: the code of the registration that accepts `u`, or NO_MATCH. */
  function MatchCode(u: Uri): (code: int)
    ensures code == ThoughtsCode <==> IsCollectionUri(u)
    ensures code == ThoughtsIdCode <==> IsItemUri(u)
    ensures code == NoMatchCode || code == ThoughtsCode || code == ThoughtsIdCode
  {
    var k := FirstAccepting(Registrations, u);
    if k == 0 then ThoughtsCode
    else if k == 1 then
      assert SegmentMatches(Number, u.path[1]);
      ThoughtsIdCode
    else
      assert !Accepts(Registrations[0], u) && !Accepts(Registrations[1], u);
      NoMatchCode
  }

  // ---------------------------------------------------------------------------
  // The two shapes, stated directly

  predicate IsCollectionUri(u: Uri)
  {
    u.authority == Authority && u.path == [PathThoughts]
  }

  predicate IsItemUri(u: Uri)
  {
    u.authority == Authority && |u.path| == 2 && u.path[0] == PathThoughts && AllDigits(u.path[1])
  }

  /**
   * The provider's switch on the match code; for THOUGHTS_ID the id is
   * `ContentUris.parseId`, the value of the last path segment.
   */
  function Classify(u: Uri): (m: Match)
    ensures m == Collection <==> IsCollectionUri(u)
    ensures m.Item? <==> IsItemUri(u)
    ensures m.Item? ==> m.id == ParseDecimal(u.path[1])
    ensures m == NoMatch <==> MatchCode(u) == NoMatchCode
  {
    var k := FirstAccepting(Registrations, u);
    if k == 0 then Collection
    else if k == 1 then
      assert SegmentMatches(Number, u.path[1]);
      Item(ParseDecimal(u.path[|u.path| - 1]))
    else
      assert !Accepts(Registrations[0], u) && !Accepts(Registrations[1], u);
      NoMatch
  }

  // ---------------------------------------------------------------------------
  // Building URIs

  /** `MyJournalEntry.CONTENT_URI`: content://com.oladimeji.myjournal/thoughts */
  const ContentUri: Uri := Uri(Authority, [PathThoughts])

  /** `ContentUris.withAppendedId(u, id)`. */
  function AppendId(u: Uri, id: nat): (r: Uri)
    ensures r.authority == u.authority && |r.path| == |u.path| + 1 && r.path[..|u.path|] == u.path
    ensures AllDigits(r.path[|u.path|]) && ParseDecimal(r.path[|u.path|]) == id
  {
    ParseShowDecimal(id);
    Uri(u.authority, u.path + [ShowDecimal(id)])
  }

  /** `Uri.toString()` of a hierarchical content URI. */
  function UriText(u: Uri): string
  {
    "content://" + u.authority + PathText(u.path)
  }

  function PathText(path: seq<Segment>): string
  {
    if path == [] then "" else PathText(path[..|path| - 1]) + "/" + path[|path| - 1]
  }

  /** The content URI is the collection. */
  lemma ContentUriIsCollection()
    ensures Classify(ContentUri) == Collection
  {
  }

  /** Appending an id to a collection URI gives an item URI that routes back to that same id. */
  lemma ClassifyAppendedId(u: Uri, id: nat)
    requires Classify(u) == Collection
    ensures Classify(AppendId(u, id)) == Item(id)
  {
  }

  /** Distinct ids give distinct item URIs. */
  lemma AppendIdInjective(u: Uri, a: nat, b: nat)
    requires AppendId(u, a) == AppendId(u, b)
    ensures a == b
  {
  }

  /** Every item URI is the content URI with a numeral appended; a numeral with leading zeros names the same item as its canonical form. */
  lemma ItemUriIsAppendedId(u: Uri)
    requires Classify(u).Item?
    ensures Classify(AppendId(ContentUri, Classify(u).id)) == Classify(u)
    ensures u.path[1] == ShowDecimal(Classify(u).id) ==> u == AppendId(ContentUri, Classify(u).id)
  {
    ClassifyAppendedId(ContentUri, Classify(u).id);
  }
}
