/** Which release logs the documentation check accepts. */
module ReleaseLog {
  import opened Wrappers
  import opened StableSort
  import Text

  const PENDING := "v?.?.? (未確定)"

  datatype LogError =
    | TooManyPending | PendingNotFirst | BadVersion(tag: string) | VersionsNotDescending
    | DatesNotDescending | VersionsBelowDates

  /** Where the other runs of ten decimal digits begin in Unicode 15.0. */
  const OTHER_ZEROS := [
    0x660, 0x6F0, 0x7C0, 0x966, 0x9E6, 0xA66, 0xAE6, 0xB66, 0xBE6, 0xC66,
    0xCE6, 0xD66, 0xDE6, 0xE50, 0xED0, 0xF20, 0x1040, 0x1090, 0x17E0, 0x1810,
    0x1946, 0x19D0, 0x1A80, 0x1A90, 0x1B50, 0x1BB0, 0x1C40, 0x1C50, 0xA620, 0xA8D0,
    0xA900, 0xA9D0, 0xA9F0, 0xAA50, 0xABF0, 0xFF10, 0x104A0, 0x10D30, 0x11066, 0x110F0,
    0x11136, 0x111D0, 0x112F0, 0x11450, 0x114D0, 0x11650, 0x116C0, 0x11730, 0x118E0, 0x11950,
    0x11C50, 0x11D50, 0x11DA0, 0x11F50, 0x16A60, 0x16AC0, 0x16B50, 0x1D7CE, 0x1D7D8, 0x1D7E2,
    0x1D7EC, 0x1D7F6, 0x1E140, 0x1E2F0, 0x1E4F0, 0x1E950, 0x1FBF0]

  /** The value of a decimal digit of any script, as `\d` and `int` know them. */
  function DigitValue(c: char): Option<nat> {
    if '0' <= c <= '9' then Some(c as int - '0' as int)
    else if c as int < 0x660 then None
    else OffsetIn(c as int, OTHER_ZEROS)
  }

  function OffsetIn(code: int, zeros: seq<int>): Option<nat> {
    if zeros == [] then None
    else if zeros[0] <= code < zeros[0] + 10 then Some(code - zeros[0])
    else OffsetIn(code, zeros[1..])
  }

  predicate IsDigit(c: char) {
    DigitValue(c).Some?
  }

  predicate AllDigits(s: string) {
    forall i | 0 <= i < |s| :: IsDigit(s[i])
  }

  /** Four digits, two digits, two digits. */
  predicate IsDateHeading(h: string) {
    && |h| == 10 && h[4] == '-' && h[7] == '-'
    && AllDigits(h[..4]) && AllDigits(h[5..7]) && AllDigits(h[8..])
  }

  function HeadingsOf(lines: seq<string>): seq<string> {
    if lines == [] then []
    else
      var n := |lines| - 1;
      HeadingsOf(lines[..n]) + if "## " <= lines[n] && |lines[n]| > 3 then [lines[n][3..]] else []
  }

  /** The second-level headings of a document. */
  function Headings(text: string): seq<string> {
    HeadingsOf(Text.Split(text, '\n'))
  }

  // ---------------------------------------------------------------- versions

  function NumberOf(s: string): nat
    requires AllDigits(s)
  {
    if s == "" then 0 else 10 * NumberOf(s[..|s| - 1]) + DigitValue(s[|s| - 1]).value
  }

  function WithoutV(tag: string): string {
    if tag != "" && tag[0] in "vV" then WithoutV(tag[1..]) else tag
  }

  /** A dotted segment up to its first hyphen or plus sign. */
  function NumericPart(segment: string): string {
    Text.Split(Text.Split(segment, '-')[0], '+')[0]
  }

  /** `int` refuses longer digit strings. */
  const MAX_INT_DIGITS := 4300

  function ParseSegments(segments: seq<string>): Option<seq<nat>> {
    if segments == [] then Some([])
    else
      var n := |segments| - 1;
      var part := NumericPart(segments[n]);
      var before := ParseSegments(segments[..n]);
      if before.None? || part == "" || !AllDigits(part) || |part| > MAX_INT_DIGITS then None
      else Some(before.value + [NumberOf(part)])
  }

  /** `parse_version`; None stands for its ValueError. */
  function ParseVersion(tag: string): Option<seq<nat>> {
    ParseSegments(Text.Split(WithoutV(tag), '.'))
  }

  /** Python's order on tuples of numbers. */
  predicate LexLe(a: seq<int>, b: seq<int>) {
    a == [] || (b != [] && (a[0] < b[0] || (a[0] == b[0] && LexLe(a[1..], b[1..]))))
  }

  lemma {:induction false} LexTotal(a: seq<int>, b: seq<int>)
    ensures LexLe(a, b) || LexLe(b, a)
  {
    if a != [] && b != [] {
      LexTotal(a[1..], b[1..]);
    }
  }

  lemma {:induction false} LexTransitive(a: seq<int>, b: seq<int>, c: seq<int>)
    requires LexLe(a, b) && LexLe(b, c)
    ensures LexLe(a, c)
  {
    if a != [] && a[0] == b[0] && b[0] == c[0] {
      LexTransitive(a[1..], b[1..], c[1..]);
    }
  }

  function VersionKey(tag: string): seq<int> {
    match ParseVersion(tag)
    case None => []
    case Some(key) => key
  }

  function Codes(s: string): seq<int> {
    seq(|s|, i requires 0 <= i < |s| => s[i] as int)
  }

  predicate NotOlder(a: string, b: string) {
    LexLe(VersionKey(b), VersionKey(a))
  }

  predicate NotEarlier(a: string, b: string) {
    LexLe(Codes(b), Codes(a))
  }

  lemma NotOlderIsTotal()
    ensures TotalPreorder(NotOlder)
  {
    forall a, b
      ensures NotOlder(a, b) || NotOlder(b, a)
    {
      LexTotal(VersionKey(a), VersionKey(b));
    }
    forall a, b, c | NotOlder(a, b) && NotOlder(b, c)
      ensures NotOlder(a, c)
    {
      LexTransitive(VersionKey(c), VersionKey(b), VersionKey(a));
    }
  }

  lemma NotEarlierIsTotal()
    ensures TotalPreorder(NotEarlier)
  {
    forall a, b
      ensures NotEarlier(a, b) || NotEarlier(b, a)
    {
      LexTotal(Codes(a), Codes(b));
    }
    forall a, b, c | NotEarlier(a, b) && NotEarlier(b, c)
      ensures NotEarlier(a, c)
    {
      LexTransitive(Codes(c), Codes(b), Codes(a));
    }
  }

  // ---------------------------------------------------------------- the checker

  function Filter(hs: seq<string>, keep: string -> bool): (r: seq<string>)
    ensures forall h :: h in r <==> h in hs && keep(h)
  {
    if hs == [] then []
    else
      var n := |hs| - 1;
      assert hs == hs[..n] + [hs[n]];
      Filter(hs[..n], keep) + if keep(hs[n]) then [hs[n]] else []
  }

  function Versions(hs: seq<string>): seq<string> {
    Filter(hs, h => !IsDateHeading(h))
  }

  function Dates(hs: seq<string>): seq<string> {
    Filter(hs, h => IsDateHeading(h))
  }

  function Pending(tags: seq<string>): seq<string> {
    Filter(tags, t => t == PENDING)
  }

  function Released(tags: seq<string>): seq<string> {
    Filter(tags, t => t != PENDING)
  }

  function FirstBad(tags: seq<string>): (r: Option<string>)
    ensures r.None? <==> forall t | t in tags :: ParseVersion(t).Some?
  {
    if tags == [] then None
    else if ParseVersion(tags[0]).None? then Some(tags[0])
    else FirstBad(tags[1..])
  }

  function PendingErrors(tags: seq<string>): seq<LogError> {
    (if |Pending(tags)| > 1 then [TooManyPending] else [])
    + (if Pending(tags) != [] && tags[0] != PENDING then [PendingNotFirst] else [])
  }

  /** A version heading below a date heading. */
  predicate Mixed(hs: seq<string>) {
    exists i, j | 0 <= i < j < |hs| :: IsDateHeading(hs[i]) && !IsDateHeading(hs[j])
  }

  function VersionErrors(released: seq<string>): seq<LogError> {
    if released != Sorted(released, NotOlder) then [VersionsNotDescending] else []
  }

  function DateErrors(dates: seq<string>): seq<LogError> {
    if dates != Sorted(dates, NotEarlier) then [DatesNotDescending] else []
  }

  function PlaceErrors(hs: seq<string>): seq<LogError> {
    if Mixed(hs) then [VersionsBelowDates] else []
  }

  function LogErrors(hs: seq<string>): seq<LogError> {
    var tags := Versions(hs);
    var bad := FirstBad(Released(tags));
    if bad.Some? then PendingErrors(tags) + [BadVersion(bad.value)]
    else PendingErrors(tags) + VersionErrors(Released(tags)) + DateErrors(Dates(hs)) + PlaceErrors(hs)
  }

  // ---------------------------------------------------------------- the accepted language

  /** At most one pending heading, then version tags newest first, then dates newest first. */
  ghost predicate Accepted(hs: seq<string>, pending: seq<string>, versions: seq<string>, dates: seq<string>) {
    && hs == pending + versions + dates
    && (pending == [] || pending == [PENDING])
    && (forall v | v in versions :: !IsDateHeading(v) && ParseVersion(v).Some?)
    && Ordered(versions, NotOlder)
    && (forall d | d in dates :: IsDateHeading(d))
    && Ordered(dates, NotEarlier)
  }

  ghost predicate InLanguage(hs: seq<string>) {
    exists pending, versions, dates :: Accepted(hs, pending, versions, dates)
  }

  lemma {:induction false} FilterSum(xs: seq<string>, ys: seq<string>, keep: string -> bool)
    ensures Filter(xs + ys, keep) == Filter(xs, keep) + Filter(ys, keep)
  {
    if ys == [] {
      assert xs + ys == xs;
    } else {
      var n := |ys| - 1;
      assert (xs + ys)[..|xs + ys| - 1] == xs + ys[..n];
      FilterSum(xs, ys[..n], keep);
    }
  }

  lemma {:induction false} FilterAll(xs: seq<string>, keep: string -> bool)
    ensures (forall x | x in xs :: keep(x)) ==> Filter(xs, keep) == xs
    ensures (forall x | x in xs :: !keep(x)) ==> Filter(xs, keep) == []
  {
    if xs != [] {
      var n := |xs| - 1;
      assert xs == xs[..n] + [xs[n]];
      FilterAll(xs[..n], keep);
    }
  }

  lemma PendingIsNoVersion()
    ensures !IsDateHeading(PENDING) && ParseVersion(PENDING).None?
  {
    var rest := "?.?.? (未確定)";
    assert PENDING[1..] == rest && WithoutV(PENDING) == rest;
    assert PENDING[4] != '-';
    assert rest[1..] == ".?.? (未確定)";
    var tail := Text.Split(rest[1..], '.');
    assert Text.Split(rest, '.') == [['?'] + tail[0]] + tail[1..];
    BadFirstSegment(Text.Split(rest, '.'));
  }

  lemma FirstPartOf(s: string, c: char)
    requires s != "" && s[0] != c
    ensures Text.Split(s, c)[0] != "" && Text.Split(s, c)[0][0] == s[0]
  {}

  lemma {:induction false} BadFirstSegment(segments: seq<string>)
    requires segments != [] && segments[0] != "" && segments[0][0] == '?'
    ensures ParseSegments(segments).None?
  {
    var n := |segments| - 1;
    if n > 0 {
      BadFirstSegment(segments[..n]);
    } else {
      FirstPartOf(segments[0], '-');
      FirstPartOf(Text.Split(segments[0], '-')[0], '+');
      assert NumericPart(segments[0])[0] == '?';
    }
  }

  /** The position of the first date heading, or the end. */
  function FirstDate(hs: seq<string>): (k: nat)
    ensures k <= |hs| && forall i | 0 <= i < k :: !IsDateHeading(hs[i])
    ensures k < |hs| ==> IsDateHeading(hs[k])
  {
    if hs == [] || IsDateHeading(hs[0]) then 0 else 1 + FirstDate(hs[1..])
  }

  /** A filter that takes all of the first part and nothing of the second, or the other way round. */
  lemma FilterParts(xs: seq<string>, ys: seq<string>, keep: string -> bool)
    ensures (forall x | x in xs :: keep(x)) && (forall y | y in ys :: !keep(y)) ==> Filter(xs + ys, keep) == xs
    ensures (forall x | x in xs :: !keep(x)) && (forall y | y in ys :: keep(y)) ==> Filter(xs + ys, keep) == ys
  {
    FilterSum(xs, ys, keep);
    FilterAll(xs, keep);
    FilterAll(ys, keep);
  }

  lemma UnmixedSplits(hs: seq<string>)
    requires !Mixed(hs)
    ensures hs == Versions(hs) + Dates(hs)
  {
    var k := FirstDate(hs);
    assert hs == hs[..k] + hs[k..];
    FilterParts(hs[..k], hs[k..], h => !IsDateHeading(h));
    FilterParts(hs[..k], hs[k..], h => IsDateHeading(h));
  }

  lemma NothingPending(tags: seq<string>)
    requires Pending(tags) == []
    ensures Released(tags) == tags
  {
    forall t | t in tags
      ensures t != PENDING
    {
      assert t !in Pending(tags);
    }
    FilterAll(tags, t => t != PENDING);
  }

  lemma PendingFirst(tail: seq<string>)
    ensures Pending([PENDING] + tail) == [PENDING] + Pending(tail)
    ensures Released([PENDING] + tail) == Released(tail)
  {
    FilterSum([PENDING], tail, t => t == PENDING);
    FilterSum([PENDING], tail, t => t != PENDING);
    FilterAll([PENDING], t => t == PENDING);
    FilterAll([PENDING], t => t != PENDING);
  }

  lemma PendingHeadSplits(tags: seq<string>)
    requires PendingErrors(tags) == []
    ensures tags == Pending(tags) + Released(tags) && (Pending(tags) == [] || Pending(tags) == [PENDING])
  {
    if Pending(tags) == [] {
      NothingPending(tags);
    } else {
      var tail := tags[1..];
      assert tags == [PENDING] + tail;
      PendingFirst(tail);
      assert |Pending(tags)| == 1 + |Pending(tail)|;
      NothingPending(tail);
    }
  }

  lemma CleanLogIsInLanguage(hs: seq<string>)
    requires LogErrors(hs) == []
    ensures Accepted(hs, Pending(Versions(hs)), Released(Versions(hs)), Dates(hs))
  {
    var tags := Versions(hs);
    var released, dates := Released(tags), Dates(hs);
    assert PendingErrors(tags) == [] && FirstBad(released).None?;
    assert VersionErrors(released) == [] && DateErrors(dates) == [] && PlaceErrors(hs) == [];
    UnmixedSplits(hs);
    PendingHeadSplits(tags);
    NotOlderIsTotal();
    NotEarlierIsTotal();
    SortedFixpointIffOrdered(released, NotOlder);
    SortedFixpointIffOrdered(dates, NotEarlier);
    assert hs == Pending(tags) + released + dates;
  }

  lemma PartsOfLanguage(hs: seq<string>, pending: seq<string>, versions: seq<string>, dates: seq<string>)
    requires Accepted(hs, pending, versions, dates)
    ensures Versions(hs) == pending + versions && Dates(hs) == dates
    ensures Pending(pending + versions) == pending && Released(pending + versions) == versions
  {
    PendingIsNoVersion();
    FilterParts(pending + versions, dates, h => !IsDateHeading(h));
    FilterParts(pending + versions, dates, h => IsDateHeading(h));
    PendingPart(pending, versions);
  }

  lemma PendingPart(pending: seq<string>, versions: seq<string>)
    requires pending == [] || pending == [PENDING]
    requires forall v | v in versions :: ParseVersion(v).Some?
    ensures Pending(pending + versions) == pending && Released(pending + versions) == versions
  {
    PendingIsNoVersion();
    FilterParts(pending, versions, t => t == PENDING);
    FilterParts(pending, versions, t => t != PENDING);
  }

  lemma OrderedIsClean(versions: seq<string>, dates: seq<string>)
    requires Ordered(versions, NotOlder) && Ordered(dates, NotEarlier)
    ensures VersionErrors(versions) == [] && DateErrors(dates) == []
  {
    NotOlderIsTotal();
    NotEarlierIsTotal();
    SortedFixpointIffOrdered(versions, NotOlder);
    SortedFixpointIffOrdered(dates, NotEarlier);
  }

  lemma PendingIsClean(pending: seq<string>, versions: seq<string>)
    requires pending == [] || pending == [PENDING]
    requires Pending(pending + versions) == pending
    ensures PendingErrors(pending + versions) == []
  {}

  lemma PartsAreUnmixed(pending: seq<string>, versions: seq<string>, dates: seq<string>)
    requires pending == [] || pending == [PENDING]
    requires forall v | v in versions :: !IsDateHeading(v)
    requires forall d | d in dates :: IsDateHeading(d)
    ensures !Mixed(pending + versions + dates)
  {}

  lemma LanguageIsClean(hs: seq<string>, pending: seq<string>, versions: seq<string>, dates: seq<string>)
    requires Accepted(hs, pending, versions, dates)
    ensures LogErrors(hs) == []
  {
    PartsOfLanguage(hs, pending, versions, dates);
    PartsAreUnmixed(pending, versions, dates);
    OrderedIsClean(versions, dates);
    PendingIsClean(pending, versions);
  }

  /** The checker reports nothing exactly on the logs of the language. */
  lemma NoErrorsIffInLanguage(hs: seq<string>)
    ensures LogErrors(hs) == [] <==> InLanguage(hs)
  {
    if LogErrors(hs) == [] {
      CleanLogIsInLanguage(hs);
    }
    if InLanguage(hs) {
      var pending, versions, dates :| Accepted(hs, pending, versions, dates);
      LanguageIsClean(hs, pending, versions, dates);
    }
  }

  /** The same for the version tags alone: at most one pending heading, first, then versions newest first. */
  ghost predicate TagsAccepted(tags: seq<string>, pending: seq<string>, versions: seq<string>) {
    && tags == pending + versions
    && (pending == [] || pending == [PENDING])
    && (forall v | v in versions :: ParseVersion(v).Some?)
    && Ordered(versions, NotOlder)
  }

  lemma CleanTagsAreAccepted(tags: seq<string>)
    requires PendingErrors(tags) == [] && FirstBad(Released(tags)).None? && VersionErrors(Released(tags)) == []
    ensures TagsAccepted(tags, Pending(tags), Released(tags))
  {
    PendingHeadSplits(tags);
    NotOlderIsTotal();
    SortedFixpointIffOrdered(Released(tags), NotOlder);
  }

  lemma AcceptedTagsAreClean(tags: seq<string>, pending: seq<string>, versions: seq<string>)
    requires TagsAccepted(tags, pending, versions)
    ensures PendingErrors(tags) == [] && FirstBad(Released(tags)).None? && VersionErrors(Released(tags)) == []
  {
    PendingPart(pending, versions);
    PendingIsClean(pending, versions);
    OrderedIsClean(versions, []);
  }

  lemma NoTagErrorsIff(tags: seq<string>)
    ensures PendingErrors(tags) == [] && FirstBad(Released(tags)).None? && VersionErrors(Released(tags)) == []
            <==> exists pending, versions :: TagsAccepted(tags, pending, versions)
  {
    if PendingErrors(tags) == [] && FirstBad(Released(tags)).None? && VersionErrors(Released(tags)) == [] {
      CleanTagsAreAccepted(tags);
    }
    if pending, versions :| TagsAccepted(tags, pending, versions) {
      AcceptedTagsAreClean(tags, pending, versions);
    }
  }

  // ---------------------------------------------------------------- the loops

  /** An index with its heading. */
  datatype Indexed = Indexed(index: nat, heading: string)

  function HeadingsIn(entries: seq<Indexed>): (r: seq<string>)
    ensures |r| == |entries| && forall i | 0 <= i < |r| :: r[i] == entries[i].heading
  {
    seq(|entries|, i requires 0 <= i < |entries| => entries[i].heading)
  }

  /** The kept headings with their positions. */
  function Entries(hs: seq<string>, keep: string -> bool): seq<Indexed> {
    if hs == [] then []
    else
      var n := |hs| - 1;
      Entries(hs[..n], keep) + if keep(hs[n]) then [Indexed(n, hs[n])] else []
  }

  lemma {:induction false} EntryHeadings(hs: seq<string>, keep: string -> bool)
    ensures HeadingsIn(Entries(hs, keep)) == Filter(hs, keep)
  {
    if hs != [] {
      EntryHeadings(hs[..|hs| - 1], keep);
    }
  }

  /** The last entry holds the position of the last kept heading. */
  lemma {:induction false} LastEntry(hs: seq<string>, keep: string -> bool)
    ensures var es := Entries(hs, keep);
            && (es == [] ==> forall j | 0 <= j < |hs| :: !keep(hs[j]))
            && (es != [] ==> var last := es[|es| - 1].index;
                  last < |hs| && keep(hs[last]) && forall j | last < j < |hs| :: !keep(hs[j]))
  {
    if hs != [] {
      var n := |hs| - 1;
      LastEntry(hs[..n], keep);
      assert forall j | 0 <= j < n :: hs[..n][j] == hs[j];
    }
  }

  /** The first entry holds the position of the first kept heading. */
  lemma {:induction false} FirstEntry(hs: seq<string>, keep: string -> bool)
    ensures var es := Entries(hs, keep);
            && (es == [] ==> forall j | 0 <= j < |hs| :: !keep(hs[j]))
            && (es != [] ==> es[0].index < |hs| && keep(hs[es[0].index])
                             && forall j | 0 <= j < es[0].index :: !keep(hs[j]))
  {
    if hs != [] {
      var n := |hs| - 1;
      FirstEntry(hs[..n], keep);
      assert forall j | 0 <= j < n :: hs[..n][j] == hs[j];
    }
  }

  function VersionEntries(hs: seq<string>): seq<Indexed> {
    Entries(hs, h => !IsDateHeading(h))
  }

  function DateEntries(hs: seq<string>): seq<Indexed> {
    Entries(hs, h => IsDateHeading(h))
  }

  /** The first loop of `validate_log_md`. */
  method SplitEntries(hs: seq<string>) returns (versions: seq<Indexed>, dates: seq<Indexed>)
    ensures versions == VersionEntries(hs) && dates == DateEntries(hs)
  {
    versions, dates := [], [];
    for i := 0 to |hs|
      invariant versions == VersionEntries(hs[..i]) && dates == DateEntries(hs[..i])
    {
      assert hs[..i + 1][..i] == hs[..i];
      if IsDateHeading(hs[i]) {
        dates := dates + [Indexed(i, hs[i])];
      } else {
        versions := versions + [Indexed(i, hs[i])];
      }
    }
    assert hs[..|hs|] == hs;
  }

  /** Comparing the last version position with the first date position finds any mixing. */
  lemma PositionsShowMixing(hs: seq<string>)
    ensures var versions, dates := VersionEntries(hs), DateEntries(hs);
            Mixed(hs) <==> versions != [] && dates != [] && versions[|versions| - 1].index > dates[0].index
  {
    LastEntry(hs, h => !IsDateHeading(h));
    FirstEntry(hs, h => IsDateHeading(h));
  }

  /** The part of `validate_log_md` that looks at version tags only; `stop` is its early return. */
  method CheckVersions(tags: seq<string>) returns (errors: seq<LogError>, stop: bool)
    ensures stop <==> exists t | t in tags :: t != PENDING && ParseVersion(t).None?
    ensures errors == [] <==> exists pending, versions :: TagsAccepted(tags, pending, versions)
    ensures var bad := FirstBad(Released(tags));
            stop == bad.Some?
            && errors == PendingErrors(tags)
                         + if bad.Some? then [BadVersion(bad.value)] else VersionErrors(Released(tags))
  {
    NoTagErrorsIff(tags);
    errors := PendingErrors(tags);
    var released := Released(tags);
    var bad := FirstBad(released);
    if bad.Some? {
      return errors + [BadVersion(bad.value)], true;
    }
    if released != Sorted(released, NotOlder) {
      errors := errors + [VersionsNotDescending];
    }
    stop := false;
  }

  lemma EntriesShowAll(hs: seq<string>)
    ensures HeadingsIn(VersionEntries(hs)) == Versions(hs) && HeadingsIn(DateEntries(hs)) == Dates(hs)
  {
    EntryHeadings(hs, h => !IsDateHeading(h));
    EntryHeadings(hs, h => IsDateHeading(h));
  }

  /** The part about dates and about where they stand. */
  method CheckDates(hs: seq<string>, versions: seq<Indexed>, dates: seq<Indexed>, before: seq<LogError>)
    returns (errors: seq<LogError>)
    requires versions == VersionEntries(hs) && dates == DateEntries(hs)
    ensures errors == before + DateErrors(Dates(hs)) + PlaceErrors(hs)
  {
    EntriesShowAll(hs);
    PositionsShowMixing(hs);
    var days := HeadingsIn(dates);
    errors := before;
    if dates != [] && days != Sorted(days, NotEarlier) {
      errors := errors + [DatesNotDescending];
    }
    if versions != [] && dates != [] && versions[|versions| - 1].index > dates[0].index {
      errors := errors + [VersionsBelowDates];
    }
  }

  /** `validate_log_md`, from the headings on. */
  method ValidateHeadings(hs: seq<string>) returns (errors: seq<LogError>)
    ensures errors == LogErrors(hs)
  {
    var versions, dates := SplitEntries(hs);
    EntriesShowAll(hs);
    var stop;
    errors, stop := CheckVersions(HeadingsIn(versions));
    if !stop {
      errors := CheckDates(hs, versions, dates, errors);
    }
  }

  /** `validate_log_md`: silent exactly on the logs of the language. */
  method ValidateLog(text: string) returns (errors: seq<LogError>)
    ensures errors == LogErrors(Headings(text))
    ensures errors == [] <==> InLanguage(Headings(text))
  {
    NoErrorsIffInLanguage(Headings(text));
    errors := ValidateHeadings(Headings(text));
  }
}
