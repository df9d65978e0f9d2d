/**
 * The client's query classifier `parseQuery` (app.js): an ordered rule table
 * that decides between a neighborhood listing and a single-property lookup.
 * Its regular expressions are written here as hand-coded matchers that follow
 * the engine's leftmost, greedy, backtracking semantics for these patterns.
 */
module Query {
  import opened Wrappers
  import opened Text

  datatype ParsedQuery = Neighborhood(location: string) | Property(address: string)

  /** The five regular expressions of `parseQuery`; all are case-insensitive. */
  datatype Pattern =
    | InOrNear       // (?:in|near)\s+([^,]+(?:,\s*[^,]+)?)
    | HouseNumber    // (\d+)\s+([^,]+)(?:,\s*([^,]+))?(?:,\s*([^,]+))?
    | ShowMe         // show\s+me\s+(.+)
    | PropertyInfo   // property\s+(?:information|info|details)\s+(?:for|about|on)\s+(.+)
    | WhatIsDetails  // what\s+(?:is|are)\s+(?:the\s+)?(?:details|information)\s+(?:for|about|on)\s+(.+)

  /** The address patterns, in the order the loop tries them. */
  const AddressPatterns: seq<Pattern> := [HouseNumber, ShowMe, PropertyInfo, WhatIsDetails]

  /** The leading phrases that `replace(/^(show me |property information for |what is the information on )/i, '')` removes. */
  const LeadingPhrases := ["show me ", "property information for ", "what is the information on "]

  // ---------------------------------------------------------------- building blocks

  /**
   * Greedy white space of at least `min` characters (`\s+` or `\s*`) followed
   * by an item whose first character must satisfy `ok`: the engine takes the
   * whole run and gives characters back one at a time until `ok` holds. The
   * result is where the item starts.
   */
  function SpacesThen(s: string, i: nat, min: nat, ok: CharClass): (r: Option<nat>)
    requires i <= |s|
    ensures r.Some? ==> i + min <= r.value < |s| && InClass(ok, s[r.value])
    ensures r.Some? ==> forall k :: i <= k < r.value ==> IsSpace(s[k])
    ensures r.Some? ==> forall j :: r.value < j <= i + RunLength(s, i, WhiteSpace) && j < |s| ==> !InClass(ok, s[j])
    ensures r.None? ==> forall j :: i + min <= j <= i + RunLength(s, i, WhiteSpace) && j < |s| ==> !InClass(ok, s[j])
  {
    var w := RunLength(s, i, WhiteSpace);
    if w < min then None else BackOff(s, i, w, min, ok)
  }

  function BackOff(s: string, i: nat, k: nat, min: nat, ok: CharClass): (r: Option<nat>)
    requires min <= k && i + k <= |s|
    ensures r.Some? ==> i + min <= r.value <= i + k && r.value < |s| && InClass(ok, s[r.value])
    ensures r.Some? ==> forall j :: r.value < j <= i + k && j < |s| ==> !InClass(ok, s[j])
    ensures r.None? ==> forall j :: i + min <= j <= i + k && j < |s| ==> !InClass(ok, s[j])
    decreases k
  {
    if i + k < |s| && InClass(ok, s[i + k]) then Some(i + k)
    else if k == min then None
    else BackOff(s, i, k - 1, min, ok)
  }

  /**
   * `\s+` in front of a literal word: the word starts with a letter, so no
   * shorter run can be followed by it and the engine keeps the whole run.
   */
  function Spaces(s: string, i: nat): (r: Option<nat>)
    requires i <= |s|
    ensures r.Some? ==> i < r.value <= |s|
  {
    var w := RunLength(s, i, WhiteSpace);
    if w == 0 then None else Some(i + w)
  }

  /**
   * `(?:information|info|details)\s+`: the first alternative followed by white
   * space. At most one alternative is (lemma InfoAlternativesAgree), so
   * backtracking into another alternative never succeeds.
   */
  function InfoNoun(s: string, i: nat): (r: Option<nat>)
    requires i <= |s|
    ensures r.Some? ==> i < r.value <= |s|
  {
    if WordAt(s, i, "information") && Spaces(s, i + 11).Some? then Spaces(s, i + 11)
    else if WordAt(s, i, "info") && Spaces(s, i + 4).Some? then Spaces(s, i + 4)
    else if WordAt(s, i, "details") && Spaces(s, i + 7).Some? then Spaces(s, i + 7)
    else None
  }

  /** `(?:is|are)\s+`. */
  function Verb(s: string, i: nat): (r: Option<nat>)
    requires i <= |s|
    ensures r.Some? ==> i < r.value <= |s|
  {
    if WordAt(s, i, "is") && Spaces(s, i + 2).Some? then Spaces(s, i + 2)
    else if WordAt(s, i, "are") && Spaces(s, i + 3).Some? then Spaces(s, i + 3)
    else None
  }

  /** `(?:details|information)\s+`. */
  function DetailsNoun(s: string, i: nat): (r: Option<nat>)
    requires i <= |s|
    ensures r.Some? ==> i < r.value <= |s|
  {
    if WordAt(s, i, "details") && Spaces(s, i + 7).Some? then Spaces(s, i + 7)
    else if WordAt(s, i, "information") && Spaces(s, i + 11).Some? then Spaces(s, i + 11)
    else None
  }

  /** `(?:for|about|on)`: where the word ends; the alternatives start with different letters. */
  function Preposition(s: string, i: nat): (r: Option<nat>)
    requires i <= |s|
    ensures r.Some? ==> i < r.value <= |s|
  {
    if WordAt(s, i, "for") then Some(i + 3)
    else if WordAt(s, i, "about") then Some(i + 5)
    else if WordAt(s, i, "on") then Some(i + 2)
    else None
  }

  /** `(?:in|near)`: where the word ends. */
  function InOrNearWord(s: string, i: nat): (r: Option<nat>)
    requires i <= |s|
    ensures r.Some? ==> i < r.value <= |s|
  {
    if WordAt(s, i, "in") then Some(i + 2)
    else if WordAt(s, i, "near") then Some(i + 4)
    else None
  }

  /** `\s+(.+)` from `i`: the captured rest of the line. */
  function LineRest(s: string, i: nat): (r: Option<string>)
    requires i <= |s|
    ensures r.Some? ==> r.value != []
  {
    match SpacesThen(s, i, 1, NonLineTerminator)
    case None => None
    case Some(c) => Some(s[c..c + RunLength(s, c, NonLineTerminator)])
  }

  // ---------------------------------------------------------------- the patterns at one position

  /** The first capture group of `pattern` for a match starting at `p`, if one starts there. */
  function MatchAt(pattern: Pattern, s: string, p: nat): (r: Option<string>)
    requires p <= |s|
    ensures r.Some? ==> r.value != []
  {
    match pattern
    case InOrNear => LocationAt(s, p)
    case HouseNumber => HouseNumberAt(s, p)
    case ShowMe => ShowMeAt(s, p)
    case PropertyInfo => PropertyInfoAt(s, p)
    case WhatIsDetails => WhatIsDetailsAt(s, p)
  }

  /** `show\s+me\s+(.+)` at `p`. */
  function ShowMeAt(s: string, p: nat): (r: Option<string>)
    requires p <= |s|
    ensures r.Some? ==> r.value != []
  {
    if !WordAt(s, p, "show") then None
    else match Spaces(s, p + 4)
      case None => None
      case Some(i) => if WordAt(s, i, "me") then LineRest(s, i + 2) else None
  }

  /** `property\s+(?:information|info|details)\s+(?:for|about|on)\s+(.+)` at `p`. */
  function PropertyInfoAt(s: string, p: nat): (r: Option<string>)
    requires p <= |s|
    ensures r.Some? ==> r.value != []
  {
    if !WordAt(s, p, "property") then None
    else match Spaces(s, p + 8)
      case None => None
      case Some(i) =>
        match InfoNoun(s, i)
        case None => None
        case Some(j) => SubjectRest(s, j)
  }

  /** `what\s+(?:is|are)\s+(?:the\s+)?(?:details|information)\s+(?:for|about|on)\s+(.+)` at `p`. */
  function WhatIsDetailsAt(s: string, p: nat): (r: Option<string>)
    requires p <= |s|
    ensures r.Some? ==> r.value != []
  {
    if !WordAt(s, p, "what") then None
    else match Spaces(s, p + 4)
      case None => None
      case Some(i) =>
        match Verb(s, i)
        case None => None
        case Some(j) =>
          // (?:the\s+)? is taken when present: without it the next word would have to start with 't'
          var j' := if WordAt(s, j, "the") && Spaces(s, j + 3).Some? then Spaces(s, j + 3).value else j;
          match DetailsNoun(s, j')
          case None => None
          case Some(k) => SubjectRest(s, k)
  }

  /** `(?:for|about|on)\s+(.+)` at `i`. */
  function SubjectRest(s: string, i: nat): (r: Option<string>)
    requires i <= |s|
    ensures r.Some? ==> r.value != []
  {
    match Preposition(s, i)
    case None => None
    case Some(k) => LineRest(s, k)
  }

  /**
   * `(\d+)\s+([^,]+)...` at `p`; the optional groups after `[^,]+` always
   * match. A shorter digit run would leave a digit where `\s` is needed, so
   * the greedy run is the only candidate.
   */
  function HouseNumberAt(s: string, p: nat): (r: Option<string>)
    requires p <= |s|
    ensures r.Some? ==> r.value != []
  {
    var d := RunLength(s, p, Digits);
    if d == 0 then None
    else if SpacesThen(s, p + d, 1, NonComma).Some? then Some(s[p..p + d])
    else None
  }

  /** `(?:in|near)\s+([^,]+(?:,\s*[^,]+)?)` at `p`. */
  function LocationAt(s: string, p: nat): (r: Option<string>)
    requires p <= |s|
    ensures r.Some? ==> r.value != []
  {
    match InOrNearWord(s, p)
    case None => None
    case Some(e) =>
      match SpacesThen(s, e, 1, NonComma)
      case None => None
      case Some(c) => Some(LocationFrom(s, c))
  }

  /** `[^,]+(?:,\s*[^,]+)?` from `c`, where a non-comma character stands. */
  function LocationFrom(s: string, c: nat): (r: string)
    requires c < |s| && s[c] != ','
    ensures r != []
  {
    s[c..LocationEnd(s, c + RunLength(s, c, NonComma))]
  }

  /**
   * Where the location ends, given the end `x` of its first `[^,]+`: the
   * optional `,\s*[^,]+` is taken when a comma and another non-comma follow.
   */
  function LocationEnd(s: string, x: nat): (end: nat)
    requires x <= |s|
    ensures x <= end <= |s|
  {
    if x < |s| then
      match SpacesThen(s, x + 1, 0, NonComma)
      case Some(c2) => c2 + RunLength(s, c2, NonComma)
      case None => x
    else x
  }

  // ---------------------------------------------------------------- search and classification

  /** The first position from `p` on whose entry is present, with that entry. */
  function Leftmost<T>(entries: seq<Option<T>>, p: nat): (r: Option<(nat, T)>)
    requires p <= |entries|
    ensures r.Some? ==> p <= r.value.0 < |entries| && entries[r.value.0] == Some(r.value.1)
    ensures r.Some? ==> forall q :: p <= q < r.value.0 ==> entries[q].None?
    ensures r.None? ==> forall q :: p <= q < |entries| ==> entries[q].None?
    decreases |entries| - p
  {
    if p == |entries| then None
    else match entries[p]
      case Some(c) => Some((p, c))
      case None => Leftmost(entries, p + 1)
  }

  /** The capture of `pattern` at every start position of `s`, the end of the string included. */
  function Attempts(pattern: Pattern, s: string): (r: seq<Option<string>>)
    ensures |r| == |s| + 1
  {
    seq(|s| + 1, q requires 0 <= q <= |s| => MatchAt(pattern, s, q))
  }

  /** `s.match(pattern)`: the leftmost start position at which `pattern` matches, and its capture. */
  function Search(pattern: Pattern, s: string): (r: Option<(nat, string)>)
    ensures r.Some? ==> r.value.0 <= |s| && MatchAt(pattern, s, r.value.0) == Some(r.value.1)
    ensures r.Some? ==> forall q :: 0 <= q < r.value.0 ==> MatchAt(pattern, s, q).None?
    ensures r.None? ==> forall q :: 0 <= q <= |s| ==> MatchAt(pattern, s, q).None?
  {
    var attempts := Attempts(pattern, s);
    var r := Leftmost(attempts, 0);
    assert forall q :: 0 <= q <= |s| ==> attempts[q] == MatchAt(pattern, s, q);
    r
  }

  /** The lowered query names a neighborhood search. */
  predicate HasTrigger(lower: string)
  {
    || Includes(lower, "homes for sale") || Includes(lower, "houses for sale")
    || Includes(lower, "properties in") || Includes(lower, "real estate in")
  }

  /**
   * `address.replace(/^(show me |property information for |what is the information on )/i, '')`:
   * the first of `phrases` that starts the address, ignoring case, is removed.
   */
  function StripPhrase(address: string, phrases: seq<string>): string
    decreases |phrases|
  {
    if phrases == [] then address
    else if WordAt(address, 0, phrases[0]) then address[|phrases[0]|..]
    else StripPhrase(address, phrases[1..])
  }

  function StripLeadingPhrase(address: string): string
  {
    StripPhrase(address, LeadingPhrases)
  }

  /** `query.match(pattern)` for each pattern of the list, in order. */
  function Searches(query: string, patterns: seq<Pattern>): (r: seq<Option<(nat, string)>>)
    ensures |r| == |patterns|
  {
    seq(|patterns|, j requires 0 <= j < |patterns| => Search(patterns[j], query))
  }

  /**
   * The address rules: the capture of the first pattern that matches anywhere,
   * without its leading phrase, or else the whole query. Captures are never
   * empty, so `match[1] || match[0]` is always `match[1]`.
   */
  function AddressRule(query: string): ParsedQuery
  {
    AddressFrom(query, Searches(query, AddressPatterns))
  }

  function AddressFrom(query: string, found: seq<Option<(nat, string)>>): ParsedQuery
  {
    match Leftmost(found, 0)
    case Some((_, (_, capture))) => Property(Trim(StripLeadingPhrase(capture)))
    case None => Property(Trim(query))
  }

  /** The specification of `parseQuery`. */
  function Classify(query: string): ParsedQuery
  {
    if HasTrigger(Lower(query)) && Search(InOrNear, query).Some?
    then Neighborhood(Trim(Search(InOrNear, query).value.1))
    else AddressRule(query)
  }

  /** `parseQuery(query)`: the trigger check, then the loop over the address patterns. */
  method ParseQuery(query: string) returns (parsed: ParsedQuery)
    ensures parsed == Classify(query)
  {
    var lowerQuery := Lower(query);
    if HasTrigger(lowerQuery) {
      var locationMatch := Search(InOrNear, query);
      if locationMatch.Some? {
        return Neighborhood(Trim(locationMatch.value.1));
      }
    }
    ghost var found := Searches(query, AddressPatterns);
    var i := 0;
    while i < |AddressPatterns|
      invariant 0 <= i <= |AddressPatterns|
      invariant Leftmost(found, 0) == Leftmost(found, i)
    {
      var match_ := Search(AddressPatterns[i], query);
      assert found[i] == match_;
      if match_.Some? {
        assert Leftmost(found, 0) == Some((i, match_.value));
        return Property(Trim(StripLeadingPhrase(match_.value.1)));
      }
      i := i + 1;
    }
    assert Leftmost(found, 0).None?;
    return Property(Trim(query));
  }
}

/** What the classifier promises, proved about the model in module Query. */
module QueryFacts {
  import opened Wrappers
  import opened Text
  import opened Query

  // ---------------------------------------------------------------- the regular expressions

  /** Whichever alternative of `(?:information|info|details)\s+` the engine tries, it ends at the same place. */
  lemma InfoAlternativesAgree(s: string, i: nat, w: string)
    requires i <= |s|
    requires w in ["information", "info", "details"]
    requires WordAt(s, i, w) && Spaces(s, i + |w|).Some?
    ensures InfoNoun(s, i) == Spaces(s, i + |w|)
  {
    if w == "info" {
      // "information" has 'r' where "info" is followed by white space
      assert IsSpace(s[i + 4]);
      assert !IsSpace('r');
      Mismatch(s, i, "information", 4);
    } else if w == "details" {
      assert Lower(s[i..i + 7])[0] == 'd';
      Mismatch(s, i, "information", 0);
      Mismatch(s, i, "info", 0);
    }
  }

  /** One character that differs from the literal, ignoring case, rules the literal out. */
  lemma Mismatch(s: string, i: nat, w: string, k: nat)
    requires k < |w| && i + k < |s|
    requires LowerChar(s[i + k]) != w[k]
    ensures !WordAt(s, i, w)
  {
    assert i + |w| <= |s| ==> s[i..i + |w|][k] == s[i + k];
  }

  /** The same for `(?:is|are)\s+`, whose alternatives start with different letters. */
  lemma VerbAlternativesAgree(s: string, i: nat, w: string)
    requires i <= |s|
    requires w in ["is", "are"]
    requires WordAt(s, i, w) && Spaces(s, i + |w|).Some?
    ensures Verb(s, i) == Spaces(s, i + |w|)
  {
    if w == "are" {
      assert LowerChar(s[i]) == 'a';
    }
  }

  /** The same for `(?:details|information)\s+`. */
  lemma NounAlternativesAgree(s: string, i: nat, w: string)
    requires i <= |s|
    requires w in ["details", "information"]
    requires WordAt(s, i, w) && Spaces(s, i + |w|).Some?
    ensures DetailsNoun(s, i) == Spaces(s, i + |w|)
  {
    if w == "information" {
      assert LowerChar(s[i]) == 'i';
    }
  }

  /**
   * What `(\d+)\s+([^,]+)` needs at `p` with `k` captured digits: the digits,
   * one white-space character, then any character other than a comma (the
   * optional groups that follow always match).
   */
  predicate HouseNumberShape(s: string, p: nat, k: nat)
  {
    k >= 1 && p + k + 1 < |s|
    && (forall j :: p <= j < p + k ==> IsDigit(s[j]))
    && IsSpace(s[p + k]) && s[p + k + 1] != ','
  }

  /** Any digit run followed by white space and a non-comma is a match, and its digits are the capture. */
  lemma HouseNumberShapeMatches(s: string, p: nat, k: nat)
    requires p <= |s| && HouseNumberShape(s, p, k)
    ensures HouseNumberAt(s, p) == Some(s[p..p + k])
  {
    var d := RunLength(s, p, Digits);
    // a longer run would put a digit where white space is, a shorter one a digit inside the run
    assert d == k;
    var w := RunLength(s, p + d, WhiteSpace);
    assert InClass(NonComma, s[p + d + 1]);
  }

  /** Every match has that shape. */
  lemma HouseNumberMatchShape(s: string, p: nat)
    requires p <= |s| && HouseNumberAt(s, p).Some?
    ensures var c := HouseNumberAt(s, p).value;
      HouseNumberShape(s, p, |c|) && c == s[p..p + |c|]
  {
    var d := RunLength(s, p, Digits);
    var r := SpacesThen(s, p + d, 1, NonComma).value;
    if r > p + d + 1 {
      assert IsSpace(s[p + d + 1]);
    }
  }

  /** The house-number matcher succeeds exactly where the regular expression can, and captures the digits. */
  lemma HouseNumberAtExact(s: string, p: nat)
    requires p <= |s|
    ensures HouseNumberAt(s, p).Some? <==> exists k: nat :: HouseNumberShape(s, p, k)
    ensures HouseNumberAt(s, p).Some? ==>
      var c := HouseNumberAt(s, p).value;
      HouseNumberShape(s, p, |c|) && c == s[p..p + |c|]
  {
    if k: nat :| HouseNumberShape(s, p, k) {
      HouseNumberShapeMatches(s, p, k);
    }
    if HouseNumberAt(s, p).Some? {
      HouseNumberMatchShape(s, p);
    }
  }

  /** The house number that `match` reports starts a run of digits: it is never the tail of a longer number. */
  lemma LeftmostHouseNumberStartsRun(s: string)
    requires Search(HouseNumber, s).Some?
    ensures var (p, c) := Search(HouseNumber, s).value;
      p == 0 || !IsDigit(s[p - 1])
  {
    var (p, c) := Search(HouseNumber, s).value;
    HouseNumberMatchShape(s, p);
    if p > 0 {
      // no match starts one character earlier, so the run cannot extend to the left
      assert MatchAt(HouseNumber, s, p - 1).None?;
      assert HouseNumberAt(s, p - 1).None?;
      HouseNumberAtExact(s, p - 1);
      assert !HouseNumberShape(s, p - 1, |c| + 1);
    }
  }

  /** A location holds at most one comma. */
  predicate AtMostOneComma(t: string)
  {
    forall i, j :: 0 <= i < j < |t| && t[i] == ',' ==> t[j] != ','
  }

  /** After the comma at `x`, the optional group adds only white space and non-commas. */
  lemma LocationEndCommas(s: string, x: nat)
    requires x <= |s|
    ensures forall k :: x < k < LocationEnd(s, x) ==> s[k] != ','
  {
    if x < |s| && SpacesThen(s, x + 1, 0, NonComma).Some? {
      var c2 := SpacesThen(s, x + 1, 0, NonComma).value;
      assert forall k :: x + 1 <= k < c2 ==> IsSpace(s[k]);
      assert forall k :: c2 <= k < LocationEnd(s, x) ==> InClass(NonComma, s[k]);
    }
  }

  /** `[^,]+(?:,\s*[^,]+)?` captures at most one comma. */
  lemma LocationFromCommas(s: string, c: nat)
    requires c < |s| && s[c] != ','
    ensures AtMostOneComma(LocationFrom(s, c))
  {
    var x := c + RunLength(s, c, NonComma);
    var t := LocationFrom(s, c);
    LocationEndCommas(s, x);
    forall i, j | 0 <= i < j < |t| && t[i] == ','
      ensures t[j] != ','
    {
      assert t[i] == s[c + i] && t[j] == s[c + j];
      assert c + i == x;
    }
  }

  lemma LocationCommas(s: string, p: nat)
    requires p <= |s| && LocationAt(s, p).Some?
    ensures AtMostOneComma(LocationAt(s, p).value)
  {
    var e := InOrNearWord(s, p).value;
    var c := SpacesThen(s, e, 1, NonComma).value;
    LocationFromCommas(s, c);
  }

  // ---------------------------------------------------------------- the rule table

  /** A query is a neighborhood search exactly when it names a trigger phrase and `in`/`near` is followed by a place. */
  lemma NeighborhoodRule(query: string)
    ensures Classify(query).Neighborhood? <==> HasTrigger(Lower(query)) && Search(InOrNear, query).Some?
  {
  }

  lemma AtMostOneCommaSlice(t: string, lo: nat, hi: nat)
    requires lo <= hi <= |t| && AtMostOneComma(t)
    ensures AtMostOneComma(t[lo..hi])
  {
    var u := t[lo..hi];
    forall i, j | 0 <= i < j < |u| && u[i] == ','
      ensures u[j] != ','
    {
      assert u[i] == t[lo + i] && u[j] == t[lo + j];
    }
  }

  /** The neighborhood location is the trimmed capture, and it holds at most one comma. */
  lemma NeighborhoodLocation(query: string)
    requires Classify(query).Neighborhood?
    ensures Search(InOrNear, query).Some?
    ensures Classify(query).location == Trim(Search(InOrNear, query).value.1)
    ensures AtMostOneComma(Classify(query).location)
  {
    NeighborhoodRule(query);
    var (p, t) := Search(InOrNear, query).value;
    assert LocationAt(query, p) == Some(t);
    LocationCommas(query, p);
    TrimSlice(t);
    var off := |t| - |TrimStart(t)|;
    AtMostOneCommaSlice(t, off, off + |Trim(t)|);
  }

  /** An address that starts with a digit keeps it: every phrase starts with a letter. */
  lemma {:induction false} StripKeepsDigitStart(address: string, phrases: seq<string>)
    requires address != [] && IsDigit(address[0])
    requires forall i :: 0 <= i < |phrases| ==> phrases[i] != [] && !IsDigit(phrases[i][0])
    ensures StripPhrase(address, phrases) == address
    decreases |phrases|
  {
    if phrases != [] {
      if WordAt(address, 0, phrases[0]) {
        assert false;
      }
      StripKeepsDigitStart(address, phrases[1..]);
    }
  }

  /**
   * The leading phrase that starts the capture, ignoring case, is removed and
   * nothing else; a capture that starts with none of them is kept whole.
   */
  lemma LeadingPhraseStripped(address: string)
    ensures forall k :: 0 <= k < |LeadingPhrases| && WordAt(address, 0, LeadingPhrases[k]) ==>
      StripLeadingPhrase(address) == address[|LeadingPhrases[k]|..]
    ensures (forall k :: 0 <= k < |LeadingPhrases| ==> !WordAt(address, 0, LeadingPhrases[k])) ==>
      StripLeadingPhrase(address) == address
  {
    var phrases := LeadingPhrases;
    assert phrases[1..][1..][1..] == [];
    forall k | 0 <= k < |phrases| && WordAt(address, 0, phrases[k])
      ensures StripLeadingPhrase(address) == address[|phrases[k]|..]
    {
      // the phrases start with 's', 'p' and 'w', so at most one of them starts the address
      assert Lower(address[0..|phrases[k]|])[0] == phrases[k][0];
      assert Lower(address[0..|phrases[k]|])[0] == LowerChar(address[0]);
      forall j | 0 <= j < |phrases| && j != k
        ensures !WordAt(address, 0, phrases[j])
      {
        assert phrases[j][0] != phrases[k][0];
      }
    }
  }

  /** A digit string is left alone by the phrase stripping and by `trim`. */
  lemma DigitsUntouched(c: string)
    requires c != [] && forall i :: 0 <= i < |c| ==> IsDigit(c[i])
    ensures Trim(StripLeadingPhrase(c)) == c
  {
    StripKeepsDigitStart(c, LeadingPhrases);
    TrimUntouched(c);
  }

  /**
   * Outside a neighborhood search, a house number anywhere in the query wins:
   * the address is the capture of the leftmost match, untouched by the phrase
   * stripping and `trim`. That capture is a digit run followed by white space
   * and a non-comma character (HouseNumberMatchShape) which starts at the
   * beginning of its run (LeftmostHouseNumberStartsRun).
   */
  lemma HouseNumberWins(query: string)
    requires !(HasTrigger(Lower(query)) && Search(InOrNear, query).Some?)
    requires Search(HouseNumber, query).Some?
    ensures Classify(query) == Property(Search(HouseNumber, query).value.1)
  {
    HouseNumberCapture(query);
    DigitsUntouched(Search(HouseNumber, query).value.1);
    LaterPatternRule(query, 0);
  }

  /** The house-number capture is a non-empty run of digits. */
  lemma HouseNumberCapture(query: string)
    requires Search(HouseNumber, query).Some?
    ensures var c := Search(HouseNumber, query).value.1;
      c != [] && forall i :: 0 <= i < |c| ==> IsDigit(c[i])
  {
    var (p, c) := Search(HouseNumber, query).value;
    HouseNumberMatchShape(query, p);
  }

  /** No house number anywhere in the query: no digit run is followed by white space and a non-comma. */
  lemma NoHouseNumber(query: string)
    ensures Search(HouseNumber, query).None? <==> forall p: nat, k: nat :: !HouseNumberShape(query, p, k)
  {
    if Search(HouseNumber, query).None? {
      forall p: nat, k: nat
        ensures !HouseNumberShape(query, p, k)
      {
        if p <= |query| {
          assert MatchAt(HouseNumber, query, p).None?;
          assert HouseNumberAt(query, p).None?;
          HouseNumberAtExact(query, p);
        }
      }
    } else {
      var (p, c) := Search(HouseNumber, query).value;
      HouseNumberMatchShape(query, p);
    }
  }

  lemma FirstFoundDecides(query: string, found: seq<Option<(nat, string)>>, k: nat)
    requires k < |found|
    requires forall j :: 0 <= j < k ==> found[j].None?
    requires found[k].Some?
    ensures AddressFrom(query, found) == Property(Trim(StripLeadingPhrase(found[k].value.1)))
  {
    LeftmostAt(found, k);
  }

  lemma LeftmostAt<T>(entries: seq<Option<T>>, k: nat)
    requires k < |entries|
    requires forall j :: 0 <= j < k ==> entries[j].None?
    requires entries[k].Some?
    ensures Leftmost(entries, 0) == Some((k, entries[k].value))
  {
  }

  lemma AddressRuleStep(query: string, k: nat)
    requires k < |AddressPatterns|
    requires forall j :: 0 <= j < k ==> Search(AddressPatterns[j], query).None?
    requires Search(AddressPatterns[k], query).Some?
    ensures AddressRule(query) == Property(Trim(StripLeadingPhrase(Search(AddressPatterns[k], query).value.1)))
  {
    var found := Searches(query, AddressPatterns);
    FirstFoundDecides(query, found, k);
  }

  lemma LaterPatternRule(query: string, k: nat)
    requires !(HasTrigger(Lower(query)) && Search(InOrNear, query).Some?)
    requires k < |AddressPatterns|
    requires forall j :: 0 <= j < k ==> Search(AddressPatterns[j], query).None?
    requires Search(AddressPatterns[k], query).Some?
    ensures Classify(query) == Property(Trim(StripLeadingPhrase(Search(AddressPatterns[k], query).value.1)))
  {
    AddressRuleStep(query, k);
  }

  /** Nothing matches: the whole query, trimmed, is looked up as an address. */
  lemma FallbackToQuery(query: string)
    requires !(HasTrigger(Lower(query)) && Search(InOrNear, query).Some?)
    requires forall j :: 0 <= j < |AddressPatterns| ==> Search(AddressPatterns[j], query).None?
    ensures Classify(query) == Property(Trim(query))
  {
    var found := Searches(query, AddressPatterns);
    assert forall j :: 0 <= j < |found| ==> found[j] == Search(AddressPatterns[j], query);
  }
}
