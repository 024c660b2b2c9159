/** Appending to the assistant's reply the tool errors and URLs that it left out. */
module ToolFacts {
  import Text

  /** A tool result: its error text, empty if there is none, and the URLs found in its JSON. */
  datatype Payload = Payload(error: string, urls: seq<string>)

  function RawItems(payloads: seq<Payload>): seq<string> {
    if payloads == [] then []
    else
      var n := |payloads| - 1;
      RawItems(payloads[..n]) + (if payloads[n].error == "" then [] else [payloads[n].error]) + payloads[n].urls
  }

  function AddFact(facts: seq<string>, item: string): seq<string> {
    var text := Text.Strip(item);
    if text != "" && text !in facts then facts + [text] else facts
  }

  function AddFacts(facts: seq<string>, items: seq<string>): seq<string> {
    if items == [] then facts else AddFact(AddFacts(facts, items[..|items| - 1]), items[|items| - 1])
  }

  /** The distinct stripped items in order of appearance. */
  function Facts(payloads: seq<Payload>): seq<string> {
    AddFacts([], RawItems(payloads))
  }

  function Missing(facts: seq<string>, text: string): (r: seq<string>)
    ensures forall f :: f in r <==> f in facts && !Text.Contains(text, f)
  {
    if facts == [] then []
    else
      var n := |facts| - 1;
      assert facts == facts[..n] + [facts[n]];
      Missing(facts[..n], text) + if Text.Contains(text, facts[n]) then [] else [facts[n]]
  }

  function Append(text: string, missing: seq<string>): string {
    Text.Rstrip(text) + "\n" + Text.Join("\n", missing)
  }

  /** `merge_assistant_with_tool_facts`. */
  function Merge(text: string, payloads: seq<Payload>): string {
    var missing := Missing(Facts(payloads), text);
    if missing == [] then text else Append(text, missing)
  }

  lemma {:induction false} AddFactsMeaning(facts: seq<string>, items: seq<string>)
    requires forall f | f in facts :: f != "" && Text.Trimmed(f)
    ensures forall f | f in AddFacts(facts, items) :: f != "" && Text.Trimmed(f)
    ensures forall f | f in facts :: f in AddFacts(facts, items)
    ensures forall x | x in items && Text.Strip(x) != "" :: Text.Strip(x) in AddFacts(facts, items)
  {
    if items != [] {
      var n := |items| - 1;
      assert items == items[..n] + [items[n]];
      AddFactsMeaning(facts, items[..n]);
      Text.StripIsTrimmed(items[n]);
    }
  }

  lemma FactsMeaning(payloads: seq<Payload>)
    ensures forall f | f in Facts(payloads) :: f != "" && Text.Trimmed(f)
    ensures forall x | x in RawItems(payloads) && Text.Strip(x) != "" :: Text.Strip(x) in Facts(payloads)
  {
    AddFactsMeaning([], RawItems(payloads));
  }

  /** Right-stripping a text cannot destroy an occurrence of something that ends in a visible character. */
  lemma RstripKeepsFacts(text: string, fact: string)
    requires fact != "" && Text.Trimmed(fact) && Text.Contains(text, fact)
    ensures Text.Contains(Text.Rstrip(text), fact)
  {
    var r := Text.Rstrip(text);
    Text.RstripDropsSpace(text);
    var i :| 0 <= i <= |text| && Text.OccursAt(text, fact, i);
    var last := i + |fact| - 1;
    assert text[i..i + |fact|][|fact| - 1] == text[last];
    assert last < |r|;
    assert r[i..i + |fact|] == text[i..i + |fact|];
    assert Text.OccursAt(r, fact, i);
  }

  lemma {:induction false} JoinContainsParts(sep: string, parts: seq<string>, part: string)
    requires part in parts
    ensures Text.Contains(Text.Join(sep, parts), part)
  {
    var n := |parts| - 1;
    if n == 0 {
      assert parts[0] == "" + part + "";
      Text.ContainsInside("", part, "");
    } else if parts[n] == part {
      var before := Text.Join(sep, parts[..n]) + sep;
      assert Text.Join(sep, parts) == before + part + "";
      Text.ContainsInside(before, part, "");
    } else {
      assert parts == parts[..n] + [parts[n]];
      JoinContainsParts(sep, parts[..n], part);
      Text.ContainsExtends(Text.Join(sep, parts[..n]), sep + parts[n], part);
      assert Text.Join(sep, parts) == Text.Join(sep, parts[..n]) + (sep + parts[n]);
    }
  }

  lemma ContainsExtendsLeft(before: string, text: string, sub: string)
    requires Text.Contains(text, sub)
    ensures Text.Contains(before + text, sub)
  {
    var i :| 0 <= i <= |text| && Text.OccursAt(text, sub, i);
    var all := before + text;
    assert all[|before| + i..|before| + i + |sub|] == text[i..i + |sub|];
    assert Text.OccursAt(all, sub, |before| + i);
  }

  lemma AppendKeepsOccurrences(text: string, missing: seq<string>, fact: string)
    requires fact != "" && Text.Trimmed(fact) && Text.Contains(text, fact)
    ensures Text.Contains(Append(text, missing), fact)
  {
    RstripKeepsFacts(text, fact);
    var tail := "\n" + Text.Join("\n", missing);
    Text.ContainsExtends(Text.Rstrip(text), tail, fact);
    assert Append(text, missing) == Text.Rstrip(text) + tail;
  }

  lemma AppendAddsMissing(text: string, missing: seq<string>, fact: string)
    requires fact in missing
    ensures Text.Contains(Append(text, missing), fact)
  {
    JoinContainsParts("\n", missing, fact);
    ContainsExtendsLeft(Text.Rstrip(text) + "\n", Text.Join("\n", missing), fact);
  }

  /** Every fact that the tools reported is in the merged reply. */
  lemma MergeContainsEveryFact(text: string, payloads: seq<Payload>, fact: string)
    requires fact in Facts(payloads)
    ensures Text.Contains(Merge(text, payloads), fact)
  {
    FactsMeaning(payloads);
    var missing := Missing(Facts(payloads), text);
    if fact in missing {
      AppendAddsMissing(text, missing, fact);
    } else if missing != [] {
      AppendKeepsOccurrences(text, missing, fact);
    }
  }

  /** The reply survives up to trailing white space, and untouched exactly when no fact is missing. */
  lemma MergeKeepsReply(text: string, payloads: seq<Payload>)
    ensures Text.Rstrip(text) <= Merge(text, payloads)
    ensures (forall f | f in Facts(payloads) :: Text.Contains(text, f)) <==> Merge(text, payloads) == text
  {
    var missing := Missing(Facts(payloads), text);
    if missing != [] {
      assert missing[0] in missing;
      MergeContainsEveryFact(text, payloads, missing[0]);
    } else {
      assert forall f | f in Facts(payloads) :: f !in missing;
    }
  }

  /** Merging the same payloads again adds nothing. */
  lemma MergeIsIdempotent(text: string, payloads: seq<Payload>)
    ensures Merge(Merge(text, payloads), payloads) == Merge(text, payloads)
  {
    var merged := Merge(text, payloads);
    forall f | f in Facts(payloads)
      ensures Text.Contains(merged, f)
    {
      MergeContainsEveryFact(text, payloads, f);
    }
    MergeKeepsReply(merged, payloads);
  }

  // ---------------------------------------------------------------- the loops

  lemma {:induction false} AddFactsInTurn(facts: seq<string>, xs: seq<string>, ys: seq<string>)
    ensures AddFacts(facts, xs + ys) == AddFacts(AddFacts(facts, xs), ys)
  {
    if ys == [] {
      assert xs + ys == xs;
    } else {
      var n := |ys| - 1;
      assert (xs + ys)[..|xs + ys| - 1] == xs + ys[..n];
      AddFactsInTurn(facts, xs, ys[..n]);
    }
  }

  method AddAll(facts: seq<string>, items: seq<string>) returns (longer: seq<string>)
    ensures longer == AddFacts(facts, items)
  {
    longer := facts;
    for i := 0 to |items|
      invariant longer == AddFacts(facts, items[..i])
    {
      assert items[..i + 1][..i] == items[..i];
      longer := AddFact(longer, items[i]);
    }
    assert items[..|items|] == items;
  }

  /** `merge_assistant_with_tool_facts` as it runs. */
  method MergeAssistantWithToolFacts(text: string, payloads: seq<Payload>) returns (merged: string)
    ensures merged == Merge(text, payloads)
  {
    var facts: seq<string> := [];
    for i := 0 to |payloads|
      invariant facts == Facts(payloads[..i])
    {
      var error := if payloads[i].error == "" then [] else [payloads[i].error];
      assert payloads[..i + 1][..i] == payloads[..i];
      AddFactsInTurn([], RawItems(payloads[..i]), error);
      AddFactsInTurn([], RawItems(payloads[..i]) + error, payloads[i].urls);
      facts := AddAll(facts, error);
      facts := AddAll(facts, payloads[i].urls);
    }
    assert payloads[..|payloads|] == payloads;
    var missing := Missing(facts, text);
    if missing == [] {
      return text;
    }
    merged := Text.Rstrip(text) + "\n" + Text.Join("\n", missing);
  }
}
