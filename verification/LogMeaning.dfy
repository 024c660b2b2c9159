/** What the release-log check reads, and each complaint it makes, in terms of the text alone. */
module LogMeaning {
  import opened Wrappers
  import opened StableSort
  import opened ReleaseLog
  import opened Positions
  import Text

  // ---------------------------------------------------------------- selecting

  /** The places of the entries that `keep` takes. */
  ghost function Where(xs: seq<string>, keep: string -> bool): set<nat> {
    set i: nat | i < |xs| && keep(xs[i])
  }

  /** `ys` are the entries that `keep` takes, and `at` says where they stand. */
  ghost predicate Selection(xs: seq<string>, keep: string -> bool, ys: seq<string>, at: seq<nat>) {
    && Ascending(at, Where(xs, keep))
    && |ys| == |at|
    && (forall k | 0 <= k < |at| :: ys[k] == xs[at[k]])
  }

  /** Going over the list from the front, each entry that is taken goes to the end. */
  lemma NextSelected(xs: seq<string>, x: string, keep: string -> bool, at: seq<nat>)
    requires Ascending(at, Where(xs, keep))
    ensures Ascending(if keep(x) then at + [|xs|] else at, Where(xs + [x], keep))
  {
    var before, after := Where(xs, keep), Where(xs + [x], keep);
    assert after == if keep(x) then before + {|xs|} else before;
    NextPlace(at, before, |xs|, keep(x), after);
  }

  lemma SelectionGrows(xs: seq<string>, x: string, keep: string -> bool, ys: seq<string>, at: seq<nat>)
    requires Selection(xs, keep, ys, at)
    ensures if keep(x) then Selection(xs + [x], keep, ys + [x], at + [|xs|]) else Selection(xs + [x], keep, ys, at)
  {
    NextSelected(xs, x, keep, at);
  }

  /** Keeping some of what was kept. */
  lemma SelectedTwice(xs: seq<string>, p: string -> bool, ys: seq<string>, outer: seq<nat>,
                      q: string -> bool, zs: seq<string>, inner: seq<nat>, both: string -> bool)
    requires Selection(xs, p, ys, outer) && Selection(ys, q, zs, inner)
    requires forall x :: both(x) <==> p(x) && q(x)
    ensures Selection(xs, both, zs, Chosen(outer, inner))
  {
    var kept := Where(xs, both);
    var at := Chosen(outer, inner);
    forall i | i in kept
      ensures i in at
    {
      var m := PlaceOf(outer, Where(xs, p), i);
      var k := PlaceOf(inner, Where(ys, q), m);
      assert at[k] == i;
    }
    forall i | i in at
      ensures i in kept
    {
      var k :| 0 <= k < |at| && at[k] == i;
      assert inner[k] in Where(ys, q) && outer[inner[k]] in Where(xs, p);
    }
    Enumerates(at, kept);
  }

  /** The selection carries a pair exactly if the list carries it at kept places. */
  lemma PairsOfSelection(xs: seq<string>, keep: string -> bool, ys: seq<string>, at: seq<nat>,
                         bad: (string, string) -> bool)
    requires Selection(xs, keep, ys, at)
    ensures (exists j, k | 0 <= j < k < |ys| :: bad(ys[j], ys[k])) <==>
            (exists i, j | 0 <= i < j < |xs| :: keep(xs[i]) && keep(xs[j]) && bad(xs[i], xs[j]))
  {
    if j, k :| 0 <= j < k < |ys| && bad(ys[j], ys[k]) {
      assert at[j] in Where(xs, keep) && at[k] in Where(xs, keep) && bad(xs[at[j]], xs[at[k]]);
    }
    if i, j :| 0 <= i < j < |xs| && keep(xs[i]) && keep(xs[j]) && bad(xs[i], xs[j]) {
      var m := PlaceOf(at, Where(xs, keep), i);
      var k := PlaceOf(at, Where(xs, keep), j);
      assert bad(ys[m], ys[k]);
    }
  }

  // ---------------------------------------------------------------- headings

  /** A line that `^## (.+)$` matches. */
  predicate IsHeading(line: string) {
    |line| > 3 && line[0] == '#' && line[1] == '#' && line[2] == ' '
  }

  lemma HeadingIff(line: string)
    ensures "## " <= line && |line| > 3 <==> IsHeading(line)
    ensures IsHeading(line) ==> line == "## " + line[3..]
  {
    if IsHeading(line) {
      assert line[..3] == "## ";
      assert line == line[..3] + line[3..];
    }
  }

  /** `hs` follow `## ` in the lines at these places, and in no other line does anything follow it. */
  ghost predicate HeadingsStand(lines: seq<string>, hs: seq<string>, at: seq<nat>) {
    && Ascending(at, Where(lines, IsHeading))
    && |hs| == |at|
    && forall k | 0 <= k < |at| :: lines[at[k]] == "## " + hs[k]
  }

  lemma NextHeading(lines: seq<string>, line: string, hs: seq<string>, at: seq<nat>)
    requires HeadingsStand(lines, hs, at)
    ensures if IsHeading(line) then HeadingsStand(lines + [line], hs + [line[3..]], at + [|lines|])
            else HeadingsStand(lines + [line], hs, at)
  {
    NextSelected(lines, line, IsHeading, at);
    HeadingIff(line);
  }

  lemma {:induction false} HeadingsAt(lines: seq<string>) returns (at: seq<nat>)
    ensures HeadingsStand(lines, HeadingsOf(lines), at)
  {
    at := [];
    if lines != [] {
      var n := |lines| - 1;
      at := HeadingsAt(lines[..n]);
      NextHeading(lines[..n], lines[n], HeadingsOf(lines[..n]), at);
      HeadingIff(lines[n]);
      assert lines == lines[..n] + [lines[n]];
      if IsHeading(lines[n]) {
        at := at + [n];
      }
    }
  }

  /** The headings are what follows `## ` in the text's lines, in the order of the lines. */
  lemma HeadingsDo(text: string) returns (lines: seq<string>, at: seq<nat>)
    ensures Text.Join("\n", lines) == text && forall l | l in lines :: '\n' !in l
    ensures HeadingsStand(lines, Headings(text), at)
  {
    lines := Text.Split(text, '\n');
    Text.JoinUndoesSplit(text, '\n');
    assert ['\n'] == "\n";
    at := HeadingsAt(lines);
  }

  // ---------------------------------------------------------------- selected headings

  lemma {:induction false} FilterAt(hs: seq<string>, keep: string -> bool) returns (at: seq<nat>)
    ensures Selection(hs, keep, Filter(hs, keep), at)
  {
    at := [];
    if hs != [] {
      var n := |hs| - 1;
      at := FilterAt(hs[..n], keep);
      SelectionGrows(hs[..n], hs[n], keep, Filter(hs[..n], keep), at);
      assert hs == hs[..n] + [hs[n]];
      if keep(hs[n]) {
        at := at + [n];
      }
    }
  }

  lemma FilterTwiceAt(hs: seq<string>, p: string -> bool, q: string -> bool, both: string -> bool)
    returns (at: seq<nat>)
    requires forall h :: both(h) <==> p(h) && q(h)
    ensures Selection(hs, both, Filter(Filter(hs, p), q), at)
  {
    var outer := FilterAt(hs, p);
    var inner := FilterAt(Filter(hs, p), q);
    SelectedTwice(hs, p, Filter(hs, p), outer, q, Filter(Filter(hs, p), q), inner, both);
    at := Chosen(outer, inner);
  }

  // ---------------------------------------------------------------- the complaints

  /** A heading that is meant as the tag of a released version. */
  predicate IsRelease(h: string) {
    !IsDateHeading(h) && h != PENDING
  }

  /** Which complaint comes before which. */
  function Rank(e: LogError): nat {
    match e
    case TooManyPending => 0
    case PendingNotFirst => 1
    case BadVersion(_) => 2
    case VersionsNotDescending => 3
    case DatesNotDescending => 4
    case VersionsBelowDates => 5
  }

  predicate IsPending(h: string) {
    h == PENDING
  }

  lemma PendingAt(hs: seq<string>) returns (at: seq<nat>)
    ensures Selection(hs, IsPending, Pending(Versions(hs)), at)
  {
    PendingIsNoVersion();
    at := FilterTwiceAt(hs, h => !IsDateHeading(h), t => t == PENDING, IsPending);
  }

  lemma ReleasesAt(hs: seq<string>) returns (at: seq<nat>)
    ensures Selection(hs, IsRelease, Released(Versions(hs)), at)
  {
    at := FilterTwiceAt(hs, h => !IsDateHeading(h), t => t != PENDING, IsRelease);
  }

  ghost predicate InOrder(errors: seq<LogError>, from: nat, below: nat) {
    && (forall e | e in errors :: from <= Rank(e) < below)
    && (forall j, k | 0 <= j < k < |errors| :: Rank(errors[j]) < Rank(errors[k]))
  }

  lemma OrderOfSum(a: seq<LogError>, b: seq<LogError>, from: nat, mid: nat, below: nat)
    requires from <= mid <= below && InOrder(a, from, mid) && InOrder(b, mid, below)
    ensures InOrder(a + b, from, below)
  {}

  lemma PendingPart(tags: seq<string>)
    ensures InOrder(PendingErrors(tags), 0, 2)
    ensures TooManyPending in PendingErrors(tags) <==> |Pending(tags)| > 1
    ensures PendingNotFirst in PendingErrors(tags) <==> Pending(tags) != [] && tags[0] != PENDING
  {}

  lemma VersionPart(released: seq<string>)
    ensures InOrder(VersionErrors(released), 3, 4)
    ensures VersionsNotDescending in VersionErrors(released) <==> VersionErrors(released) != []
  {}

  lemma DatePart(dates: seq<string>)
    ensures InOrder(DateErrors(dates), 4, 5)
    ensures DatesNotDescending in DateErrors(dates) <==> DateErrors(dates) != []
  {}

  lemma PlacePart(hs: seq<string>)
    ensures InOrder(PlaceErrors(hs), 5, 6)
    ensures VersionsBelowDates in PlaceErrors(hs) <==> Mixed(hs)
  {}

  lemma OrderOfFour(a: seq<LogError>, b: seq<LogError>, c: seq<LogError>, d: seq<LogError>)
    requires InOrder(a, 0, 2) && InOrder(b, 3, 4) && InOrder(c, 4, 5) && InOrder(d, 5, 6)
    ensures InOrder(a + b + c + d, 0, 6)
  {
    OrderOfSum(a, b, 0, 3, 4);
    OrderOfSum(a + b, c, 0, 4, 5);
    OrderOfSum(a + b + c, d, 0, 5, 6);
  }

  lemma OrderWithBadVersion(a: seq<LogError>, tag: string)
    requires InOrder(a, 0, 2)
    ensures InOrder(a + [BadVersion(tag)], 0, 6)
  {}

  /** No complaint is made twice, and they come in a fixed order. */
  lemma ComplaintsInOrder(hs: seq<string>)
    ensures InOrder(LogErrors(hs), 0, 6)
  {
    var tags := Versions(hs);
    var bad := FirstBad(Released(tags));
    PendingPart(tags);
    if bad.Some? {
      OrderWithBadVersion(PendingErrors(tags), bad.value);
    } else {
      VersionPart(Released(tags));
      DatePart(Dates(hs));
      PlacePart(hs);
      OrderOfFour(PendingErrors(tags), VersionErrors(Released(tags)), DateErrors(Dates(hs)), PlaceErrors(hs));
    }
  }

  lemma PartsOfLogErrors(hs: seq<string>, e: LogError)
    ensures var tags := Versions(hs);
            var bad := FirstBad(Released(tags));
            e in LogErrors(hs) <==>
            e in PendingErrors(tags)
            || if bad.Some? then e == BadVersion(bad.value)
               else e in VersionErrors(Released(tags)) || e in DateErrors(Dates(hs)) || e in PlaceErrors(hs)
  {}

  lemma RankDecides(hs: seq<string>, e: LogError)
    ensures var tags := Versions(hs);
            var bad := FirstBad(Released(tags));
            e in LogErrors(hs) <==>
            match Rank(e)
            case 0 => e in PendingErrors(tags)
            case 1 => e in PendingErrors(tags)
            case 2 => bad.Some? && e == BadVersion(bad.value)
            case 3 => bad.None? && e in VersionErrors(Released(tags))
            case 4 => bad.None? && e in DateErrors(Dates(hs))
            case _ => bad.None? && e in PlaceErrors(hs)
  {
    PartsOfLogErrors(hs, e);
    PendingPart(Versions(hs));
    VersionPart(Released(Versions(hs)));
    DatePart(Dates(hs));
    PlacePart(hs);
  }

  lemma PendingAmongErrors(hs: seq<string>)
    ensures TooManyPending in LogErrors(hs) <==> |Pending(Versions(hs))| > 1
    ensures PendingNotFirst in LogErrors(hs) <==> Pending(Versions(hs)) != [] && Versions(hs)[0] != PENDING
  {
    RankDecides(hs, TooManyPending);
    RankDecides(hs, PendingNotFirst);
    PendingPart(Versions(hs));
  }

  lemma BadVersionAmongErrors(hs: seq<string>, tag: string)
    ensures BadVersion(tag) in LogErrors(hs) <==> FirstBad(Released(Versions(hs))) == Some(tag)
  {
    RankDecides(hs, BadVersion(tag));
  }

  lemma OrderAmongErrors(hs: seq<string>)
    ensures VersionsNotDescending in LogErrors(hs) <==>
            FirstBad(Released(Versions(hs))).None? && VersionErrors(Released(Versions(hs))) != []
  {
    RankDecides(hs, VersionsNotDescending);
    VersionPart(Released(Versions(hs)));
  }

  lemma RankOfDates(hs: seq<string>, e: LogError)
    requires Rank(e) == 4
    ensures e in LogErrors(hs) <==> FirstBad(Released(Versions(hs))).None? && e in DateErrors(Dates(hs))
  {
    RankDecides(hs, e);
  }

  lemma DatesAmongErrors(hs: seq<string>)
    ensures DatesNotDescending in LogErrors(hs) <==>
            FirstBad(Released(Versions(hs))).None? && DateErrors(Dates(hs)) != []
  {
    RankOfDates(hs, DatesNotDescending);
    DatePart(Dates(hs));
  }

  lemma PlaceAmongErrors(hs: seq<string>)
    ensures VersionsBelowDates in LogErrors(hs) <==> FirstBad(Released(Versions(hs))).None? && Mixed(hs)
  {
    RankDecides(hs, VersionsBelowDates);
    PlacePart(hs);
  }

  lemma SeveralIff(hs: seq<string>, keep: string -> bool, ys: seq<string>, at: seq<nat>)
    requires Selection(hs, keep, ys, at)
    ensures |ys| > 1 <==> exists i, j | 0 <= i < j < |hs| :: keep(hs[i]) && keep(hs[j])
  {
    PairsOfSelection(hs, keep, ys, at, (a, b) => true);
    if |ys| > 1 {
      var bad := (a: string, b: string) => true;
      assert bad(ys[0], ys[1]);
    }
  }

  /** The first of the kept headings is no tag like those, and one of those stands below it. */
  lemma LateIff(hs: seq<string>, keep: string -> bool, ys: seq<string>, all: seq<nat>,
                tag: string -> bool, tags: seq<string>, at: seq<nat>)
    requires Selection(hs, keep, ys, all) && Selection(hs, tag, tags, at) && forall h :: tag(h) ==> keep(h)
    ensures tags != [] ==> ys != []
    ensures (tags != [] && !tag(ys[0])) <==>
            exists i, j | 0 <= i < j < |hs| :: keep(hs[i]) && !tag(hs[i]) && tag(hs[j])
                                               && forall k | 0 <= k < i :: !keep(hs[k])
  {
    if tags != [] {
      assert at[0] in Where(hs, tag);
      var m := PlaceOf(all, Where(hs, keep), at[0]);
      if !tag(ys[0]) {
        NothingBefore(hs, keep, ys, all);
        assert keep(hs[all[0]]) && !tag(hs[all[0]]) && tag(hs[at[0]]);
      }
    }
    if i, j :| 0 <= i < j < |hs| && keep(hs[i]) && !tag(hs[i]) && tag(hs[j]) && forall k | 0 <= k < i :: !keep(hs[k]) {
      var m := PlaceOf(at, Where(hs, tag), j);
      var k := PlaceOf(all, Where(hs, keep), i);
      assert all[0] in Where(hs, keep);
    }
  }

  lemma NothingBefore(hs: seq<string>, keep: string -> bool, ys: seq<string>, at: seq<nat>)
    requires Selection(hs, keep, ys, at) && at != []
    ensures at[0] in Where(hs, keep) && forall i | 0 <= i < at[0] :: !keep(hs[i])
  {
    forall i | 0 <= i < at[0]
      ensures !keep(hs[i])
    {
      if keep(hs[i]) {
        var m := PlaceOf(at, Where(hs, keep), i);
      }
    }
  }

  /** The pending heading may stand once. */
  lemma SeveralPending(hs: seq<string>)
    ensures TooManyPending in LogErrors(hs) <==>
            exists i, j | 0 <= i < j < |hs| :: IsPending(hs[i]) && IsPending(hs[j])
  {
    PendingAmongErrors(hs);
    var at := PendingAt(hs);
    SeveralIff(hs, IsPending, Pending(Versions(hs)), at);
  }

  predicate IsVersion(h: string) {
    !IsDateHeading(h)
  }

  lemma VersionsAt(hs: seq<string>) returns (at: seq<nat>)
    ensures Selection(hs, IsVersion, Versions(hs), at)
  {
    at := FilterAt(hs, h => !IsDateHeading(h));
    assert Where(hs, h => !IsDateHeading(h)) == Where(hs, IsVersion);
  }

  /** And above every other version. */
  lemma LatePending(hs: seq<string>)
    ensures PendingNotFirst in LogErrors(hs) <==>
            exists i, j | 0 <= i < j < |hs| :: IsVersion(hs[i]) && !IsPending(hs[i]) && IsPending(hs[j])
                                               && forall k | 0 <= k < i :: !IsVersion(hs[k])
  {
    PendingAmongErrors(hs);
    PendingIsNoVersion();
    var at := PendingAt(hs);
    var all := VersionsAt(hs);
    LateIff(hs, IsVersion, Versions(hs), all, IsPending, Pending(Versions(hs)), at);
  }

  lemma {:induction false} FirstBadAt(tags: seq<string>, t: string)
    ensures FirstBad(tags) == Some(t) <==>
            exists k | 0 <= k < |tags| :: tags[k] == t && ParseVersion(t).None?
                                          && forall j | 0 <= j < k :: ParseVersion(tags[j]).Some?
  {
    if tags != [] && ParseVersion(tags[0]).Some? {
      FirstBadAt(tags[1..], t);
      if k :| 0 <= k < |tags| && tags[k] == t && ParseVersion(t).None?
              && forall j | 0 <= j < k :: ParseVersion(tags[j]).Some? {
        assert tags[1..][k - 1] == t;
      }
      if k :| 0 <= k < |tags| - 1 && tags[1..][k] == t && ParseVersion(t).None?
              && forall j | 0 <= j < k :: ParseVersion(tags[1..][j]).Some? {
        assert tags[k + 1] == t;
        assert forall j | 0 < j < k + 1 :: tags[j] == tags[1..][j - 1];
      }
    }
  }

  /** The first of some selected tags that is no version is the first such heading. */
  lemma FaultAmongTags(hs: seq<string>, counts: string -> bool, tags: seq<string>, at: seq<nat>, k: nat)
    requires Selection(hs, counts, tags, at)
    requires k < |tags| && forall j | 0 <= j < k :: ParseVersion(tags[j]).Some?
    ensures at[k] in Where(hs, counts)
    ensures forall j | 0 <= j < at[k] && counts(hs[j]) :: ParseVersion(hs[j]).Some?
  {
    forall j | 0 <= j < at[k] && counts(hs[j])
      ensures ParseVersion(hs[j]).Some?
    {
      var m := PlaceOf(at, Where(hs, counts), j);
      assert ParseVersion(tags[m]).Some?;
    }
  }

  lemma FaultAmongHeadings(hs: seq<string>, counts: string -> bool, tags: seq<string>, at: seq<nat>, i: nat)
    returns (k: nat)
    requires Selection(hs, counts, tags, at)
    requires i < |hs| && counts(hs[i]) && forall j | 0 <= j < i && counts(hs[j]) :: ParseVersion(hs[j]).Some?
    ensures k < |tags| && tags[k] == hs[i] && forall j | 0 <= j < k :: ParseVersion(tags[j]).Some?
  {
    k := PlaceOf(at, Where(hs, counts), i);
    forall j | 0 <= j < k
      ensures ParseVersion(tags[j]).Some?
    {
      assert at[j] in Where(hs, counts);
    }
  }

  lemma FirstFault(hs: seq<string>, counts: string -> bool, tags: seq<string>, at: seq<nat>, tag: string)
    requires Selection(hs, counts, tags, at)
    ensures FirstBad(tags) == Some(tag) <==>
            exists i | 0 <= i < |hs| :: hs[i] == tag && counts(tag) && ParseVersion(tag).None?
                                        && forall j | 0 <= j < i && counts(hs[j]) :: ParseVersion(hs[j]).Some?
  {
    FirstBadAt(tags, tag);
    if k :| 0 <= k < |tags| && tags[k] == tag && ParseVersion(tag).None?
            && forall j | 0 <= j < k :: ParseVersion(tags[j]).Some? {
      FaultAmongTags(hs, counts, tags, at, k);
      assert hs[at[k]] == tag;
    }
    if i :| 0 <= i < |hs| && hs[i] == tag && counts(tag) && ParseVersion(tag).None?
            && forall j | 0 <= j < i && counts(hs[j]) :: ParseVersion(hs[j]).Some? {
      var k := FaultAmongHeadings(hs, counts, tags, at, i);
      assert tags[k] == tag;
    }
  }

  /** The first release heading that is no version tag is named, and no other. */
  lemma BadVersionComplaint(hs: seq<string>, tag: string)
    ensures BadVersion(tag) in LogErrors(hs) <==>
            exists i | 0 <= i < |hs| :: hs[i] == tag && IsRelease(tag) && ParseVersion(tag).None?
                                        && forall j | 0 <= j < i && IsRelease(hs[j]) :: ParseVersion(hs[j]).Some?
  {
    BadVersionAmongErrors(hs, tag);
    var at := ReleasesAt(hs);
    FirstFault(hs, IsRelease, Released(Versions(hs)), at, tag);
  }

  lemma AllReleasesParse(hs: seq<string>, counts: string -> bool, tags: seq<string>, at: seq<nat>)
    requires Selection(hs, counts, tags, at)
    ensures FirstBad(tags).None? <==> forall i | 0 <= i < |hs| && counts(hs[i]) :: ParseVersion(hs[i]).Some?
  {
    if FirstBad(tags).None? {
      forall i | 0 <= i < |hs| && counts(hs[i])
        ensures ParseVersion(hs[i]).Some?
      {
        var k := PlaceOf(at, Where(hs, counts), i);
        assert tags[k] in tags;
      }
    } else {
      var t :| t in tags && ParseVersion(t).None?;
      var k :| 0 <= k < |tags| && tags[k] == t;
      assert at[k] in Where(hs, counts);
    }
  }

  lemma DescendingIff(tags: seq<string>)
    ensures VersionErrors(tags) != [] <==> exists j, k | 0 <= j < k < |tags| :: !NotOlder(tags[j], tags[k])
  {
    NotOlderIsTotal();
    SortedFixpointIffOrdered(tags, NotOlder);
  }

  lemma DatesDescendingIff(days: seq<string>)
    ensures DateErrors(days) != [] <==> exists j, k | 0 <= j < k < |days| :: !NotEarlier(days[j], days[k])
  {
    NotEarlierIsTotal();
    SortedFixpointIffOrdered(days, NotEarlier);
  }

  /** Two release headings out of order are reported, and nothing else is, once all of them are version tags. */
  lemma VersionOrderComplaint(hs: seq<string>)
    ensures VersionsNotDescending in LogErrors(hs) <==>
            && (forall i | 0 <= i < |hs| && IsRelease(hs[i]) :: ParseVersion(hs[i]).Some?)
            && exists i, j | 0 <= i < j < |hs| :: IsRelease(hs[i]) && IsRelease(hs[j]) && !NotOlder(hs[i], hs[j])
  {
    var tags := Released(Versions(hs));
    var at := ReleasesAt(hs);
    OrderAmongErrors(hs);
    AllReleasesParse(hs, IsRelease, tags, at);
    DescendingIff(tags);
    PairsOfSelection(hs, IsRelease, tags, at, (a, b) => !NotOlder(a, b));
  }

  lemma DatesAt(hs: seq<string>) returns (at: seq<nat>)
    ensures Selection(hs, IsDateHeading, Dates(hs), at)
  {
    at := FilterAt(hs, h => IsDateHeading(h));
    assert Where(hs, h => IsDateHeading(h)) == Where(hs, IsDateHeading);
  }

  lemma DatePairs(hs: seq<string>)
    ensures DateErrors(Dates(hs)) != [] <==>
            exists i, j | 0 <= i < j < |hs| :: IsDateHeading(hs[i]) && IsDateHeading(hs[j]) && !NotEarlier(hs[i], hs[j])
  {
    var at := DatesAt(hs);
    DatesDescendingIff(Dates(hs));
    PairsOfSelection(hs, IsDateHeading, Dates(hs), at, (a, b) => !NotEarlier(a, b));
  }

  /** So are two date headings out of order, and a version heading below a date heading. */
  lemma DateComplaints(hs: seq<string>)
    ensures var good := forall i | 0 <= i < |hs| && IsRelease(hs[i]) :: ParseVersion(hs[i]).Some?;
            && (DatesNotDescending in LogErrors(hs) <==>
                good && exists i, j | 0 <= i < j < |hs| ::
                          IsDateHeading(hs[i]) && IsDateHeading(hs[j]) && !NotEarlier(hs[i], hs[j]))
            && (VersionsBelowDates in LogErrors(hs) <==>
                good && exists i, j | 0 <= i < j < |hs| :: IsDateHeading(hs[i]) && !IsDateHeading(hs[j]))
  {
    var at := ReleasesAt(hs);
    DatesAmongErrors(hs);
    PlaceAmongErrors(hs);
    AllReleasesParse(hs, IsRelease, Released(Versions(hs)), at);
    DatePairs(hs);
  }

  lemma DatePieces(h: string, y: string, m: string, d: string)
    requires h == y + "-" + m + "-" + d && |y| == 4 && |m| == 2 && |d| == 2
    ensures |h| == 10 && h[4] == '-' && h[7] == '-' && h[..4] == y && h[5..7] == m && h[8..] == d
  {}

  /** Four digits, two digits and two digits with hyphens between are a date heading. */
  lemma DateHeadingHolds(y: string, m: string, d: string)
    requires |y| == 4 && |m| == 2 && |d| == 2 && AllDigits(y) && AllDigits(m) && AllDigits(d)
    ensures IsDateHeading(y + "-" + m + "-" + d)
  {
    DatePieces(y + "-" + m + "-" + d, y, m, d);
  }

  /** And every date heading is of that form. */
  lemma DateHeadingReads(h: string) returns (y: string, m: string, d: string)
    requires IsDateHeading(h)
    ensures h == y + "-" + m + "-" + d
    ensures |y| == 4 && |m| == 2 && |d| == 2 && AllDigits(y) && AllDigits(m) && AllDigits(d)
  {
    y, m, d := h[..4], h[5..7], h[8..];
  }
}
