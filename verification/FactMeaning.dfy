/** What exactly is appended to a reply: which reports of the tools, in which order, and how. */
module FactMeaning {
  import opened Positions
  import opened ToolFacts
  import Text

  /** Place 0 of a payload is its error, the later places are its URLs. */
  datatype Source = Source(payload: nat, place: nat)

  predicate Reports(payloads: seq<Payload>, s: Source) {
    && s.payload < |payloads|
    && (if s.place == 0 then payloads[s.payload].error != "" else s.place <= |payloads[s.payload].urls|)
  }

  function Said(payloads: seq<Payload>, s: Source): string
    requires Reports(payloads, s)
  {
    if s.place == 0 then payloads[s.payload].error else payloads[s.payload].urls[s.place - 1]
  }

  predicate Before(s: Source, t: Source) {
    s.payload < t.payload || (s.payload == t.payload && s.place < t.place)
  }

  // ---------------------------------------------------------------- the items

  ghost predicate Sources(payloads: seq<Payload>, items: seq<string>, src: seq<Source>) {
    && |src| == |items|
    && (forall i | 0 <= i < |src| :: Reports(payloads, src[i]) && items[i] == Said(payloads, src[i]))
    && (forall i, j :: 0 <= i < j < |src| ==> Before(src[i], src[j]))
  }

  ghost predicate Covers(payloads: seq<Payload>, src: seq<Source>) {
    forall s | Reports(payloads, s) :: s in src
  }

  function ErrorOf(payload: Payload): seq<string> {
    if payload.error == "" then [] else [payload.error]
  }

  /** The places of one payload. */
  ghost function PlacesOf(payload: Payload, p: nat): (src: seq<Source>)
    ensures |src| == |ErrorOf(payload)| + |payload.urls|
    ensures forall k | 0 <= k < |src| :: src[k] == Source(p, k + 1 - |ErrorOf(payload)|)
  {
    seq(|ErrorOf(payload)| + |payload.urls|,
        k requires 0 <= k < |ErrorOf(payload)| + |payload.urls| => Source(p, k + 1 - |ErrorOf(payload)|))
  }

  lemma SourcesGrow(payloads: seq<Payload>, payload: Payload, items: seq<string>, src: seq<Source>)
    requires Sources(payloads, items, src)
    ensures Sources(payloads + [payload], items + ErrorOf(payload) + payload.urls, src + PlacesOf(payload, |payloads|))
  {
    var now, more, places := payloads + [payload], ErrorOf(payload) + payload.urls, PlacesOf(payload, |payloads|);
    var all := src + places;
    assert items + ErrorOf(payload) + payload.urls == items + more;
    forall i | 0 <= i < |all|
      ensures Reports(now, all[i]) && (items + more)[i] == Said(now, all[i])
    {
      if i < |src| {
        assert all[i] == src[i];
      } else {
        assert all[i] == places[i - |src|];
      }
    }
    forall i, j | 0 <= i < j < |all|
      ensures Before(all[i], all[j])
    {
      if i < |src| {
        assert all[i] == src[i];
        if j < |src| {
          assert all[j] == src[j];
        }
      }
    }
  }

  lemma CoversGrow(payloads: seq<Payload>, payload: Payload, src: seq<Source>)
    requires Covers(payloads, src)
    ensures Covers(payloads + [payload], src + PlacesOf(payload, |payloads|))
  {
    var now, more := payloads + [payload], PlacesOf(payload, |payloads|);
    forall s | Reports(now, s)
      ensures s in src + more
    {
      if s.payload < |payloads| {
        assert Reports(payloads, s);
      } else {
        var k := s.place + |ErrorOf(payload)| - 1;
        assert more[k] == s;
      }
    }
  }

  lemma {:induction false} SourcesOfItems(payloads: seq<Payload>) returns (src: seq<Source>)
    ensures Sources(payloads, RawItems(payloads), src) && Covers(payloads, src)
  {
    src := [];
    if payloads != [] {
      var n := |payloads| - 1;
      src := SourcesOfItems(payloads[..n]);
      SourcesGrow(payloads[..n], payloads[n], RawItems(payloads[..n]), src);
      CoversGrow(payloads[..n], payloads[n], src);
      assert payloads == payloads[..n] + [payloads[n]];
      src := src + PlacesOf(payloads[n], n);
    }
  }

  // ---------------------------------------------------------------- the facts

  /** The text is not empty, and no earlier one is the same. */
  ghost predicate NewText(texts: seq<string>, i: nat) {
    i < |texts| && texts[i] != "" && forall j | 0 <= j < i :: texts[j] != texts[i]
  }

  ghost function NewPlaces(texts: seq<string>): set<nat> {
    set i: nat | i < |texts| && NewText(texts, i)
  }

  ghost predicate FactsFrom(texts: seq<string>, facts: seq<string>, at: seq<nat>) {
    && Ascending(at, NewPlaces(texts))
    && |facts| == |at|
    && (forall k | 0 <= k < |at| :: facts[k] == texts[at[k]])
  }

  lemma {:induction false} FirstOfText(texts: seq<string>, i: nat) returns (f: nat)
    requires i < |texts| && texts[i] != ""
    ensures NewText(texts, f) && texts[f] == texts[i]
  {
    f := i;
    if j :| 0 <= j < i && texts[j] == texts[i] {
      f := FirstOfText(texts, j);
    }
  }

  lemma NewIffUnknown(texts: seq<string>, text: string, facts: seq<string>, at: seq<nat>)
    requires FactsFrom(texts, facts, at) && text != ""
    ensures text in facts <==> exists j | 0 <= j < |texts| :: texts[j] == text
  {
    if k :| 0 <= k < |facts| && facts[k] == text {
      assert at[k] in NewPlaces(texts);
    }
    if j :| 0 <= j < |texts| && texts[j] == text {
      var f := FirstOfText(texts, j);
      var k := PlaceOf(at, NewPlaces(texts), f);
      assert facts[k] == text;
    }
  }

  lemma FactsNext(texts: seq<string>, text: string, facts: seq<string>, at: seq<nat>)
    requires FactsFrom(texts, facts, at)
    ensures if text != "" && text !in facts then FactsFrom(texts + [text], facts + [text], at + [|texts|])
            else FactsFrom(texts + [text], facts, at)
  {
    if text != "" {
      NewIffUnknown(texts, text, facts, at);
    }
    var isNew := text != "" && text !in facts;
    NewPlacesNext(texts, text);
    NextPlace(at, NewPlaces(texts), |texts|, isNew, NewPlaces(texts + [text]));
  }

  lemma NewPlacesNext(texts: seq<string>, text: string)
    ensures var known := text == "" || exists j | 0 <= j < |texts| :: texts[j] == text;
            NewPlaces(texts + [text]) == if known then NewPlaces(texts) else NewPlaces(texts) + {|texts|}
  {
    var n, longer := |texts|, texts + [text];
    assert longer[n] == text && forall j | 0 <= j < n :: longer[j] == texts[j];
    assert forall i: nat | i < n :: NewText(longer, i) <==> NewText(texts, i);
  }

  ghost function Stripped(items: seq<string>): (texts: seq<string>)
    ensures |texts| == |items| && forall i | 0 <= i < |items| :: texts[i] == Text.Strip(items[i])
  {
    seq(|items|, i requires 0 <= i < |items| => Text.Strip(items[i]))
  }

  ghost function Collected(texts: seq<string>): seq<string> {
    if texts == [] then []
    else
      var n := |texts| - 1;
      var facts := Collected(texts[..n]);
      if texts[n] != "" && texts[n] !in facts then facts + [texts[n]] else facts
  }

  lemma {:induction false} FactsAreCollected(items: seq<string>)
    ensures AddFacts([], items) == Collected(Stripped(items))
  {
    if items != [] {
      var n := |items| - 1;
      FactsAreCollected(items[..n]);
      assert Stripped(items)[..n] == Stripped(items[..n]);
    }
  }

  lemma {:induction false} FactPlaces(texts: seq<string>) returns (at: seq<nat>)
    ensures FactsFrom(texts, Collected(texts), at)
  {
    at := [];
    if texts != [] {
      var n := |texts| - 1;
      at := FactPlaces(texts[..n]);
      var facts := Collected(texts[..n]);
      FactsNext(texts[..n], texts[n], facts, at);
      assert texts == texts[..n] + [texts[n]];
      if texts[n] != "" && texts[n] !in facts {
        at := at + [n];
      }
    }
  }

  // ---------------------------------------------------------------- the missing ones

  ghost predicate MissingFrom(facts: seq<string>, text: string, missing: seq<string>, at: seq<nat>) {
    && Ascending(at, set i: nat | i < |facts| && !Text.Contains(text, facts[i]))
    && |missing| == |at|
    && (forall k | 0 <= k < |at| :: missing[k] == facts[at[k]])
  }

  lemma MissingNext(facts: seq<string>, fact: string, text: string, missing: seq<string>, at: seq<nat>)
    requires MissingFrom(facts, text, missing, at)
    ensures if Text.Contains(text, fact) then MissingFrom(facts + [fact], text, missing, at)
            else MissingFrom(facts + [fact], text, missing + [fact], at + [|facts|])
  {
    var n, longer := |facts|, facts + [fact];
    var before := set i: nat | i < n && !Text.Contains(text, facts[i]);
    var after := set i: nat | i < |longer| && !Text.Contains(text, longer[i]);
    var absent := !Text.Contains(text, fact);
    assert after == if absent then before + {n} else before;
    NextPlace(at, before, n, absent, after);
  }

  lemma {:induction false} MissingPlaces(facts: seq<string>, text: string) returns (at: seq<nat>)
    ensures MissingFrom(facts, text, Missing(facts, text), at)
  {
    at := [];
    if facts != [] {
      var n := |facts| - 1;
      at := MissingPlaces(facts[..n], text);
      MissingNext(facts[..n], facts[n], text, Missing(facts[..n], text), at);
      assert facts == facts[..n] + [facts[n]];
      if !Text.Contains(text, facts[n]) {
        at := at + [n];
      }
    }
  }

  // ---------------------------------------------------------------- the reply

  /** The first report of a text that the reply does not have yet. */
  ghost predicate Appended(text: string, payloads: seq<Payload>, s: Source) {
    && Reports(payloads, s)
    && var fact := Text.Strip(Said(payloads, s));
    && fact != "" && !Text.Contains(text, fact)
    && forall t | Reports(payloads, t) && Before(t, s) :: Text.Strip(Said(payloads, t)) != fact
  }

  ghost function Texts(payloads: seq<Payload>, src: seq<Source>): (facts: seq<string>)
    requires forall k | 0 <= k < |src| :: Reports(payloads, src[k])
    ensures |facts| == |src| && forall k | 0 <= k < |src| :: facts[k] == Text.Strip(Said(payloads, src[k]))
  {
    seq(|src|, k requires 0 <= k < |src| => Text.Strip(Said(payloads, src[k])))
  }

  /** A new text is one that no earlier report has. */
  lemma NewTextIff(payloads: seq<Payload>, items: seq<string>, all: seq<Source>, i: nat)
    requires Sources(payloads, items, all) && Covers(payloads, all) && i < |all|
    ensures NewText(Stripped(items), i) <==>
            Text.Strip(items[i]) != ""
            && forall t | Reports(payloads, t) && Before(t, all[i]) ::
                 Text.Strip(Said(payloads, t)) != Text.Strip(items[i])
  {
    var texts := Stripped(items);
    if NewText(texts, i) {
      forall t | Reports(payloads, t) && Before(t, all[i])
        ensures Text.Strip(Said(payloads, t)) != texts[i]
      {
        var m :| 0 <= m < |all| && all[m] == t;
        assert i < m ==> Before(all[i], all[m]);
        assert items[m] == Said(payloads, t) && texts[m] != texts[i];
      }
    } else if texts[i] != "" {
      var j :| 0 <= j < i && texts[j] == texts[i];
      assert Before(all[j], all[i]) && Reports(payloads, all[j]) && items[j] == Said(payloads, all[j]);
    }
  }

  lemma ChosenIsAppended(text: string, payloads: seq<Payload>, items: seq<string>, all: seq<Source>, i: nat)
    requires Sources(payloads, items, all) && Covers(payloads, all) && i < |all|
    ensures Appended(text, payloads, all[i]) <==>
            NewText(Stripped(items), i) && !Text.Contains(text, Stripped(items)[i])
  {
    NewTextIff(payloads, items, all, i);
  }

  /** The places of the missing texts: those that are new and not in the reply. */
  lemma PlacesOfMissing(text: string, texts: seq<string>, facts: seq<string>, at: seq<nat>,
                        missing: seq<string>, inner: seq<nat>, i: nat)
    requires FactsFrom(texts, facts, at) && MissingFrom(facts, text, missing, inner)
    ensures (forall k | 0 <= k < |inner| :: inner[k] < |at|)
    ensures i in Chosen(at, inner) <==> i < |texts| && NewText(texts, i) && !Text.Contains(text, texts[i])
  {
    var kept := set k: nat | k < |facts| && !Text.Contains(text, facts[k]);
    forall k | 0 <= k < |inner|
      ensures inner[k] < |at| && at[inner[k]] in NewPlaces(texts) && !Text.Contains(text, texts[at[inner[k]]])
    {
      assert inner[k] in kept;
    }
    if i < |texts| && NewText(texts, i) && !Text.Contains(text, texts[i]) {
      var m := PlaceOf(at, NewPlaces(texts), i);
      var k := PlaceOf(inner, kept, m);
      assert Chosen(at, inner)[k] == i;
    }
  }

  lemma PlacesOfAppended(text: string, items: seq<string>) returns (places: seq<nat>)
    ensures var texts, missing := Stripped(items), Missing(AddFacts([], items), text);
            && |places| == |missing|
            && (forall j, k :: 0 <= j < k < |places| ==> places[j] < places[k])
            && (forall i: nat :: i in places <==>
                                 i < |items| && NewText(texts, i) && !Text.Contains(text, texts[i]))
            && (forall k | 0 <= k < |places| :: places[k] < |items| && missing[k] == texts[places[k]])
  {
    var texts, facts := Stripped(items), AddFacts([], items);
    var missing := Missing(facts, text);
    FactsAreCollected(items);
    var at := FactPlaces(texts);
    var inner := MissingPlaces(facts, text);
    PlacesOfMissing(text, texts, facts, at, missing, inner, 0);
    places := Chosen(at, inner);
    forall i: nat
      ensures i in places <==> i < |items| && NewText(texts, i) && !Text.Contains(text, texts[i])
    {
      PlacesOfMissing(text, texts, facts, at, missing, inner, i);
    }
    forall k | 0 <= k < |places|
      ensures places[k] < |items|
    {
      assert places[k] in places;
    }
  }

  /** These are all the reports whose texts are to be appended, in order. */
  ghost predicate IsAppendix(text: string, payloads: seq<Payload>, src: seq<Source>) {
    && (forall k | 0 <= k < |src| :: Appended(text, payloads, src[k]))
    && (forall j, k :: 0 <= j < k < |src| ==> Before(src[j], src[k]))
    && (forall s | Appended(text, payloads, s) :: s in src)
  }

  lemma ChosenAreAppendix(text: string, payloads: seq<Payload>, items: seq<string>, all: seq<Source>, places: seq<nat>)
    requires Sources(payloads, items, all) && Covers(payloads, all)
    requires forall j, k :: 0 <= j < k < |places| ==> places[j] < places[k]
    requires forall i: nat :: i in places <==>
                              i < |items| && NewText(Stripped(items), i) && !Text.Contains(text, Stripped(items)[i])
    requires forall k | 0 <= k < |places| :: places[k] < |items|
    ensures IsAppendix(text, payloads, Chosen(all, places))
  {
    var src := Chosen(all, places);
    forall k | 0 <= k < |src|
      ensures Appended(text, payloads, src[k])
    {
      assert places[k] in places;
      ChosenIsAppended(text, payloads, items, all, places[k]);
    }
    forall s | Appended(text, payloads, s)
      ensures s in src
    {
      var i :| 0 <= i < |all| && all[i] == s;
      ChosenIsAppended(text, payloads, items, all, i);
      var k :| 0 <= k < |places| && places[k] == i;
      assert src[k] == s;
    }
  }

  lemma ChosenTexts(payloads: seq<Payload>, items: seq<string>, all: seq<Source>, places: seq<nat>,
                    missing: seq<string>)
    requires Sources(payloads, items, all) && |missing| == |places|
    requires forall k | 0 <= k < |places| :: places[k] < |items| && missing[k] == Stripped(items)[places[k]]
    ensures forall k | 0 <= k < |places| :: Reports(payloads, Chosen(all, places)[k])
    ensures Texts(payloads, Chosen(all, places)) == missing
  {}

  /**
   The merged reply. Appended are, in the order of the payloads and with a payload's error before
   its URLs, the stripped texts that are not blank, not in the reply and not reported earlier, one
   a line below the right-stripped reply; if there is none the reply stays as it is.
  */
  lemma MergeDoes(text: string, payloads: seq<Payload>) returns (src: seq<Source>)
    ensures IsAppendix(text, payloads, src)
    ensures Merge(text, payloads)
            == if src == [] then text else Text.Rstrip(text) + "\n" + Text.Join("\n", Texts(payloads, src))
  {
    var items := RawItems(payloads);
    var all := SourcesOfItems(payloads);
    var places := PlacesOfAppended(text, items);
    ChosenAreAppendix(text, payloads, items, all, places);
    ChosenTexts(payloads, items, all, places, Missing(Facts(payloads), text));
    src := Chosen(all, places);
  }
}
