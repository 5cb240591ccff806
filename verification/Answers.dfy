/** Resolving an operator's answer against the pending questions
    (src/http_attach_driver.rs, `resolve_question_choice(s)`). */
module Answers {
  import opened Common
  import opened Text

  const USIZE_MAX: nat := 0xFFFF_FFFF_FFFF_FFFF

  /** Characters with the Unicode `White_Space` property. */
  predicate IsSpace(c: char) {
    var code := c as int;
    || 0x09 <= code <= 0x0D || code == 0x20 || code == 0x85 || code == 0xA0 || code == 0x1680
    || 0x2000 <= code <= 0x200A || code == 0x2028 || code == 0x2029 || code == 0x202F
    || code == 0x205F || code == 0x3000
  }

  function TrimStart(s: string): string {
    if s != [] && IsSpace(s[0]) then TrimStart(s[1..]) else s
  }

  function TrimEnd(s: string): string {
    if s != [] && IsSpace(Last(s)) then TrimEnd(Front(s)) else s
  }

  function Trim(s: string): string {
    TrimEnd(TrimStart(s))
  }

  function Lower(c: char): char {
    if 'A' <= c <= 'Z' then (c as int + 32) as char else c
  }

  /** `eq_ignore_ascii_case`. */
  predicate SameIgnoringCase(s: string, t: string) {
    |s| == |t| && forall i :: 0 <= i < |s| ==> Lower(s[i]) == Lower(t[i])
  }

  function FirstMatch(wanted: string, options: seq<string>): Option<string> {
    if options == [] then None
    else if SameIgnoringCase(options[0], wanted) then Some(options[0])
    else FirstMatch(wanted, options[1..])
  }

  /** A 0-based index in range, or else the first label equal but for case. */
  function ResolveChoice(choice: string, options: seq<string>): Option<string> {
    match ParseUint(Trim(choice), USIZE_MAX)
    case Some(index) => if index < |options| then Some(options[index]) else FirstMatch(Trim(choice), options)
    case None => FirstMatch(Trim(choice), options)
  }

  function Split(s: string, c: char): seq<string>
    decreases |s|
  {
    match SplitOnce(s, [c])
    case None => [s]
    case Some((before, after)) => [before] + Split(after, c)
  }

  /** `collect` into an `Option`: everything or nothing. */
  function ResolveAll(segments: seq<string>, questions: seq<seq<string>>): Option<seq<string>>
    requires |segments| == |questions|
  {
    if segments == [] then Some([])
    else match (ResolveChoice(segments[0], questions[0]), ResolveAll(segments[1..], questions[1..]))
      case (Some(wanted), Some(labels)) => Some([wanted] + labels)
      case _ => None
  }

  function ResolveChoices(choice: string, questions: seq<seq<string>>): Option<seq<string>> {
    var segments := Split(choice, ',');
    if |segments| != |questions| then None else ResolveAll(segments, questions)
  }

  // ---------------------------------------------------------------------
  // Splitting and joining
  // ---------------------------------------------------------------------

  function Join(segments: seq<string>, c: char): string {
    if segments == [] then []
    else if |segments| == 1 then segments[0]
    else segments[0] + [c] + Join(segments[1..], c)
  }

  /** Splitting undoes joining, and joining undoes splitting. */
  lemma {:induction false} SplitJoin(segments: seq<string>, c: char)
    requires segments != [] && forall i :: 0 <= i < |segments| ==> c !in segments[i]
    ensures Split(Join(segments, c), c) == segments
  {
    if |segments| == 1 {
      FindNoChar(segments[0], c);
      assert segments == [segments[0]];
    } else {
      SplitOnceChar(segments[0], c, Join(segments[1..], c));
      SplitJoin(segments[1..], c);
    }
  }

  lemma {:induction false} JoinSplit(s: string, c: char)
    ensures Split(s, c) != [] && Join(Split(s, c), c) == s
    ensures forall i :: 0 <= i < |Split(s, c)| ==> c !in Split(s, c)[i]
    decreases |s|
  {
    FindNoChar(s, c);
    if SplitOnce(s, [c]).Some? {
      SplitOnceCharBefore(s, c);
      var (before, after) := SplitOnce(s, [c]).value;
      JoinSplit(after, c);
      assert Split(s, c)[1..] == Split(after, c);
    }
  }

  // ---------------------------------------------------------------------
  // One question
  // ---------------------------------------------------------------------

  lemma {:induction false} FirstMatchMeaning(wanted: string, options: seq<string>)
    ensures match FirstMatch(wanted, options)
            case Some(found) =>
              exists k :: 0 <= k < |options| && options[k] == found && SameIgnoringCase(options[k], wanted)
                          && forall j :: 0 <= j < k ==> !SameIgnoringCase(options[j], wanted)
            case None => forall k :: 0 <= k < |options| ==> !SameIgnoringCase(options[k], wanted)
  {
    if options != [] && !SameIgnoringCase(options[0], wanted) {
      FirstMatchMeaning(wanted, options[1..]);
      match FirstMatch(wanted, options)
      case Some(found) =>
        var k :| 0 <= k < |options[1..]| && options[1..][k] == found && SameIgnoringCase(options[1..][k], wanted)
                 && forall j :: 0 <= j < k ==> !SameIgnoringCase(options[1..][j], wanted);
        assert options[k + 1] == found;
        assert forall j :: 0 < j < k + 1 ==> options[j] == options[1..][j - 1];
      case None =>
        assert forall k :: 0 < k < |options| ==> options[k] == options[1..][k - 1];
    }
  }

  predicate Trimmed(s: string) {
    s == [] || (!IsSpace(s[0]) && !IsSpace(Last(s)))
  }

  lemma TrimTrimmed(s: string)
    requires Trimmed(s)
    ensures Trim(s) == s
  {
  }

  /** The index a segment would be read as, if it reads as one in range. */
  function IndexRead(choice: string, options: seq<string>): Option<nat> {
    match ParseUint(Trim(choice), USIZE_MAX)
    case Some(index) => if index < |options| then Some(index) else None
    case None => None
  }

  lemma {:induction false} TrimStartShortens(s: string)
    ensures TrimStart(s) == s || |TrimStart(s)| < |s|
  {
    if s != [] && IsSpace(s[0]) {
      TrimStartShortens(s[1..]);
    }
  }

  lemma {:induction false} TrimEndShortens(s: string)
    ensures TrimEnd(s) == s || |TrimEnd(s)| < |s|
  {
    if s != [] && IsSpace(Last(s)) {
      TrimEndShortens(Front(s));
    }
  }

  lemma TrimShortens(s: string)
    ensures Trim(s) == s || |Trim(s)| < |s|
  {
    TrimStartShortens(s);
    TrimEndShortens(TrimStart(s));
  }

  /** Whether typing a label, on its own, picks the first option equal to it
      but for case: an index read in range wins over the label, and otherwise
      the label must have no space around it to lose. */
  predicate PicksItself(wanted: string, options: seq<string>) {
    match IndexRead(wanted, options)
    case Some(index) => FirstMatch(wanted, options) == Some(options[index])
    case None => Trim(wanted) == wanted
  }

  lemma LabelResolvesIff(wanted: string, options: seq<string>)
    requires wanted in options
    ensures FirstMatch(wanted, options).Some?
    ensures ResolveChoice(wanted, options) == FirstMatch(wanted, options) <==> PicksItself(wanted, options)
  {
    FirstMatchMeaning(wanted, options);
    FirstMatchMeaning(Trim(wanted), options);
    TrimShortens(wanted);
    assert SameIgnoringCase(wanted, wanted);
  }

  // ---------------------------------------------------------------------
  // A label typed in any case, with space around it
  // ---------------------------------------------------------------------

  /** The same character, or the same ASCII letter in the other case. */
  predicate CaseVariant(c: char, d: char) {
    || c == d
    || ('A' <= c <= 'Z' && d as int == c as int + 32)
    || ('A' <= d <= 'Z' && c as int == d as int + 32)
  }

  predicate CaseVariants(s: string, t: string) {
    |s| == |t| && forall i :: 0 <= i < |s| ==> CaseVariant(s[i], t[i])
  }

  lemma LowerMeaning(c: char, d: char)
    ensures Lower(c) == Lower(d) <==> CaseVariant(c, d)
  {
  }

  lemma SameIgnoringCaseMeaning(s: string, t: string)
    ensures SameIgnoringCase(s, t) <==> CaseVariants(s, t)
  {
    if |s| == |t| {
      forall i | 0 <= i < |s| ensures Lower(s[i]) == Lower(t[i]) <==> CaseVariant(s[i], t[i]) {
        LowerMeaning(s[i], t[i]);
      }
    }
  }

  /** Nothing but characters Unicode calls white space. */
  predicate Blank(s: string) {
    forall i :: 0 <= i < |s| ==>
      (s[i] as int) in {9, 10, 11, 12, 13, 32, 0x85, 0xA0, 0x1680, 0x2000, 0x2001, 0x2002, 0x2003, 0x2004, 0x2005,
                        0x2006, 0x2007, 0x2008, 0x2009, 0x200A, 0x2028, 0x2029, 0x202F, 0x205F, 0x3000}
  }

  lemma BlankIsSpace(s: string)
    ensures Blank(s) <==> forall i :: 0 <= i < |s| ==> IsSpace(s[i])
  {
  }

  lemma {:induction false} TrimsStart(before: string, s: string)
    requires forall i :: 0 <= i < |before| ==> IsSpace(before[i])
    ensures TrimStart(before + s) == TrimStart(s)
  {
    if before == [] {
      assert before + s == s;
    } else {
      assert (before + s)[1..] == before[1..] + s;
      TrimsStart(before[1..], s);
    }
  }

  lemma {:induction false} TrimsEnd(s: string, after: string)
    requires forall i :: 0 <= i < |after| ==> IsSpace(after[i])
    ensures TrimEnd(s + after) == TrimEnd(s)
  {
    if after == [] {
      assert s + after == s;
    } else {
      assert s + after == (s + Front(after)) + [Last(after)];
      SnocParts(s + Front(after), Last(after));
      TrimsEnd(s, Front(after));
    }
  }

  lemma TrimsAround(before: string, s: string, after: string)
    requires Trimmed(s) && Blank(before) && Blank(after)
    ensures Trim(before + s + after) == s
  {
    BlankIsSpace(before);
    BlankIsSpace(after);
    ConcatAssociates(before, s, after);
    TrimsStart(before, s + after);
    if s == [] {
      assert s + after == after && after + [] == after;
      TrimsStart(after, []);
    } else {
      assert (s + after)[0] == s[0];
      TrimsEnd(s, after);
    }
  }

  /** Option `k` is the first that is `typed` but for case. */
  ghost predicate IsFirstVariant(options: seq<string>, typed: string, k: nat) {
    k < |options| && CaseVariants(options[k], typed) && forall j :: 0 <= j < k ==> !CaseVariants(options[j], typed)
  }

  lemma FirstVariantMatches(options: seq<string>, typed: string)
    ensures forall k: nat :: IsFirstVariant(options, typed, k) ==> FirstMatch(typed, options) == Some(options[k])
    ensures (forall k: nat :: !IsFirstVariant(options, typed, k)) ==> FirstMatch(typed, options).None?
  {
    FirstMatchMeaning(typed, options);
    forall i | 0 <= i < |options| ensures SameIgnoringCase(options[i], typed) <==> CaseVariants(options[i], typed) {
      SameIgnoringCaseMeaning(options[i], typed);
    }
    if FirstMatch(typed, options).Some? {
      var k :| 0 <= k < |options| && options[k] == FirstMatch(typed, options).value
               && SameIgnoringCase(options[k], typed)
               && forall j :: 0 <= j < k ==> !SameIgnoringCase(options[j], typed);
      assert IsFirstVariant(options, typed, k);
    }
  }

  /** Whatever is typed, with white space around it or not: a numeral in range
      picks the option with that index, and anything else picks the first option
      that it is but for the case of ASCII letters, spelt as the option spells it,
      or nothing. */
  lemma TypedChoice(before: string, typed: string, after: string, options: seq<string>)
    requires Trimmed(typed) && Blank(before) && Blank(after)
    ensures var r := ResolveChoice(before + typed + after, options);
            && (forall n: nat :: IsNumeral(typed, n) && n < |options| && n <= 0xFFFF_FFFF_FFFF_FFFF ==>
                  r == Some(options[n]))
            && ((forall n: nat :: IsNumeral(typed, n) ==> n >= |options| || n > 0xFFFF_FFFF_FFFF_FFFF) ==>
                  && (forall k: nat :: IsFirstVariant(options, typed, k) ==> r == Some(options[k]))
                  && ((forall k: nat :: !IsFirstVariant(options, typed, k)) ==> r.None?))
  {
    hide Trim, ParseUint, IsNumeral, FirstMatch, IsFirstVariant;
    TrimsAround(before, typed, after);
    FirstVariantMatches(options, typed);
    forall n: nat ensures ParseUint(typed, USIZE_MAX) == Some(n) <==> n <= USIZE_MAX && IsNumeral(typed, n) {
      ParseUintIff(typed, USIZE_MAX, n);
    }
  }

  // ---------------------------------------------------------------------
  // All questions
  // ---------------------------------------------------------------------

  lemma {:induction false} ResolveAllPointwise(segments: seq<string>, questions: seq<seq<string>>)
    requires |segments| == |questions|
    ensures var r := ResolveAll(segments, questions);
            && (r.Some? <==> forall i :: 0 <= i < |segments| ==> ResolveChoice(segments[i], questions[i]).Some?)
            && (r.Some? ==> (&& |r.value| == |questions|
                             && forall i :: 0 <= i < |segments| ==>
                                  ResolveChoice(segments[i], questions[i]) == Some(r.value[i])))
  {
    hide ResolveChoice;
    if segments != [] {
      ResolveAllPointwise(segments[1..], questions[1..]);
      assert forall i :: 0 < i < |segments| ==>
                           segments[i] == segments[1..][i - 1] && questions[i] == questions[1..][i - 1];
      var r := ResolveAll(segments, questions);
      if forall i :: 0 <= i < |segments| ==> ResolveChoice(segments[i], questions[i]).Some? {
        assert ResolveChoice(segments[0], questions[0]).Some?;
        assert forall i :: 0 <= i < |segments[1..]| ==> segments[1..][i] == segments[i + 1];
      }
    }
  }

  lemma ResolvedIsMember(choice: string, options: seq<string>)
    ensures ResolveChoice(choice, options).Some? ==> ResolveChoice(choice, options).value in options
  {
    FirstMatchMeaning(Trim(choice), options);
  }

  /** All or nothing: a resolution exists exactly when the comma count matches
      and every segment resolves, and then it holds one member label per
      question, in order. */
  lemma AllOrNothing(choice: string, questions: seq<seq<string>>)
    ensures var segments := Split(choice, ',');
            var r := ResolveChoices(choice, questions);
            && (r.Some? <==> |segments| == |questions|
                             && forall i :: 0 <= i < |segments| ==> ResolveChoice(segments[i], questions[i]).Some?)
            && (r.Some? ==> (&& |r.value| == |questions|
                             && forall i :: 0 <= i < |questions| ==> r.value[i] in questions[i]))
  {
    var segments := Split(choice, ',');
    if |segments| == |questions| {
      ResolveAllPointwise(segments, questions);
      forall i | 0 <= i < |segments|
        ensures ResolveChoice(segments[i], questions[i]).Some? ==>
                  ResolveChoice(segments[i], questions[i]).value in questions[i]
      {
        ResolvedIsMember(segments[i], questions[i]);
      }
    }
  }

  function Decimals(indices: seq<nat>): seq<string> {
    seq(|indices|, i requires 0 <= i < |indices| => Decimal(indices[i]))
  }

  /** Answering by index round-trips: any choice of in-range indices, written
      in decimal and joined by commas, resolves to exactly those labels. */
  lemma IndicesRoundTrip(indices: seq<nat>, questions: seq<seq<string>>)
    requires indices != [] && |indices| == |questions|
    requires forall i :: 0 <= i < |indices| ==> indices[i] < |questions[i]| && indices[i] <= USIZE_MAX
    ensures var r := ResolveChoices(Join(Decimals(indices), ','), questions);
            r.Some? && |r.value| == |questions|
            && forall i :: 0 <= i < |indices| ==> r.value[i] == questions[i][indices[i]]
  {
    var segments := Decimals(indices);
    forall i | 0 <= i < |segments|
      ensures ',' !in segments[i]
      ensures ResolveChoice(segments[i], questions[i]) == Some(questions[i][indices[i]])
    {
      DecimalHasOnlyDigits(indices[i], ',');
      ParseDecimal(indices[i], USIZE_MAX);
      assert IsDigit(segments[i][0]) && IsDigit(Last(segments[i]));
      TrimTrimmed(segments[i]);
    }
    SplitJoin(segments, ',');
    ResolveAllPointwise(segments, questions);
  }

  lemma {:induction false} SplitCount(s: string, c: char)
    ensures |Split(s, c)| == Occurrences(s, c) + 1
    decreases |s|
  {
    FindNoChar(s, c);
    NoOccurrence(s, c);
    if SplitOnce(s, [c]).Some? {
      SplitOnceCharBefore(s, c);
      var (before, after) := SplitOnce(s, [c]).value;
      NoOccurrence(before, c);
      OccurrencesConcat(before, [c], c);
      OccurrencesConcat(before + [c], after, c);
      SplitCount(after, c);
    }
  }

  /** Joining adds one separator between neighbours, and the segments may bring
      more of their own. */
  lemma {:induction false} JoinCount(segments: seq<string>, c: char)
    requires segments != []
    ensures Occurrences(Join(segments, c), c) >= |segments| - 1
    ensures Occurrences(Join(segments, c), c) == |segments| - 1
            <==> forall i :: 0 <= i < |segments| ==> c !in segments[i]
  {
    NoOccurrence(segments[0], c);
    if |segments| > 1 {
      var rest := segments[1..];
      JoinCount(rest, c);
      OccurrencesConcat(segments[0], [c], c);
      OccurrencesConcat(segments[0] + [c], Join(rest, c), c);
      assert forall i :: 0 < i < |segments| ==> segments[i] == rest[i - 1];
      assert forall i :: 0 <= i < |rest| ==> rest[i] == segments[i + 1];
    }
  }

  /** The labels asked for, as the options spell them first. */
  ghost predicate AreFirstMatches(resolved: Option<seq<string>>, labels: seq<string>, questions: seq<seq<string>>)
    requires |labels| == |questions|
  {
    && resolved.Some? && |resolved.value| == |labels|
    && forall i :: 0 <= i < |labels| ==> FirstMatch(labels[i], questions[i]) == Some(resolved.value[i])
  }

  /** Answering by label, one for each question, joined by commas: the labels
      themselves are chosen exactly when none of them holds a comma and each
      would pick itself on its own. */
  lemma LabelsRoundTripIff(labels: seq<string>, questions: seq<seq<string>>)
    requires labels != [] && |labels| == |questions|
    requires forall i :: 0 <= i < |labels| ==> labels[i] in questions[i]
    ensures AreFirstMatches(ResolveChoices(Join(labels, ','), questions), labels, questions)
            <==> forall i :: 0 <= i < |labels| ==> ',' !in labels[i] && PicksItself(labels[i], questions[i])
  {
    SplitCount(Join(labels, ','), ',');
    JoinCount(labels, ',');
    if forall i :: 0 <= i < |labels| ==> ',' !in labels[i] {
      SplitJoin(labels, ',');
      ResolveAllPointwise(labels, questions);
      forall i | 0 <= i < |labels|
        ensures FirstMatch(labels[i], questions[i]).Some?
        ensures ResolveChoice(labels[i], questions[i]) == FirstMatch(labels[i], questions[i])
                <==> PicksItself(labels[i], questions[i])
      {
        LabelResolvesIff(labels[i], questions[i]);
      }
    }
  }

  /** With no question pending nothing resolves, not even an empty answer. */
  lemma NoQuestionsNoAnswer(choice: string)
    ensures ResolveChoices(choice, []).None?
  {
    JoinSplit(choice, ',');
  }
}
