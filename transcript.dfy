/** The transcript reconciler: the `setMessages` updater of the voice page's
    message handler, a pure reducer from the current log and one platform
    message to the next log. */
module Transcript {

  datatype Entry = Entry(content: string, role: string, isPartial: bool)

  /** A message from the voice platform; only `transcript` messages matter. */
  datatype VapiMessage =
    | TranscriptMessage(role: string, transcriptType: string, transcript: string)
    | OtherMessage(messageType: string)

  /** The entry a transcript message would add. */
  function EntryOf(m: VapiMessage): Entry
    requires m.TranscriptMessage?
  {
    Entry(m.transcript, m.role, m.transcriptType == "partial")
  }

  /** The last entry has the speaker of `m` and is still partial. */
  predicate ContinuesPartial(log: seq<Entry>, m: VapiMessage)
    requires m.TranscriptMessage?
  {
    |log| > 0 && log[|log| - 1].role == m.role && log[|log| - 1].isPartial
  }

  /** `m` is a final transcript with the last entry's text (of any speaker). */
  predicate RepeatsLastText(log: seq<Entry>, m: VapiMessage)
    requires m.TranscriptMessage?
  {
    |log| > 0 && log[|log| - 1].content == m.transcript && m.transcriptType != "partial"
  }

  /** One step: replace the last entry, drop the message, or append. */
  function Reduce(log: seq<Entry>, m: VapiMessage): (r: seq<Entry>)
    ensures |log| <= |r| <= |log| + 1
    ensures |log| > 0 ==> r[..|log| - 1] == log[..|log| - 1]
    ensures |r| == |log| + 1 ==> r[..|log|] == log
    ensures r != log ==> m.TranscriptMessage? && r[|r| - 1] == EntryOf(m)
  {
    if !m.TranscriptMessage? then log
    else if ContinuesPartial(log, m) then log[..|log| - 1] + [EntryOf(m)]
    else if RepeatsLastText(log, m) then log
    else log + [EntryOf(m)]
  }

  /** Messages other than transcripts leave the log alone. */
  lemma OtherMessageIgnored(log: seq<Entry>, m: VapiMessage)
    requires !m.TranscriptMessage?
    ensures Reduce(log, m) == log
  {
  }

  /** Replace: a message continuing a partial entry of its speaker rewrites
      that entry; the length and all earlier entries stay. */
  lemma ReplaceCase(log: seq<Entry>, m: VapiMessage)
    requires m.TranscriptMessage? && ContinuesPartial(log, m)
    ensures var r := Reduce(log, m);
      |r| == |log| && r[|r| - 1] == EntryOf(m) && forall k :: 0 <= k < |log| - 1 ==> r[k] == log[k]
  {
  }

  /** Drop: otherwise a final message repeating the last entry's text, of
      whichever speaker, is ignored. */
  lemma DropCase(log: seq<Entry>, m: VapiMessage)
    requires m.TranscriptMessage? && !ContinuesPartial(log, m) && RepeatsLastText(log, m)
    ensures Reduce(log, m) == log
  {
  }

  /** Append: in every other case the message becomes one new last entry. */
  lemma AppendCase(log: seq<Entry>, m: VapiMessage)
    requires m.TranscriptMessage? && !ContinuesPartial(log, m) && !RepeatsLastText(log, m)
    ensures Reduce(log, m) == log + [EntryOf(m)]
  {
  }

  /** The log after a run of messages, in arrival order. */
  function ReduceAll(log: seq<Entry>, ms: seq<VapiMessage>): seq<Entry>
    decreases |ms|
  {
    if ms == [] then log else ReduceAll(Reduce(log, ms[0]), ms[1..])
  }

  /** Coalescing: no partial entry is ever followed by another entry of the
      same speaker, because a later message of that speaker rewrites it. */
  predicate Coalesced(log: seq<Entry>) {
    forall k :: 0 <= k < |log| - 1 ==> !(log[k].isPartial && log[k].role == log[k + 1].role)
  }

  lemma ReducePreservesCoalesced(log: seq<Entry>, m: VapiMessage)
    requires Coalesced(log)
    ensures Coalesced(Reduce(log, m))
  {
    var r := Reduce(log, m);
    if m.TranscriptMessage? && ContinuesPartial(log, m) {
      forall k | 0 <= k < |r| - 1
        ensures !(r[k].isPartial && r[k].role == r[k + 1].role)
      {
        assert r[k] == log[k];
        if k + 1 < |log| - 1 {
          assert r[k + 1] == log[k + 1];
        } else {
          assert r[k + 1].role == log[k + 1].role;
        }
      }
    } else if r != log {
      forall k | 0 <= k < |r| - 1
        ensures !(r[k].isPartial && r[k].role == r[k + 1].role)
      {
        assert r[k] == log[k];
        if k + 1 < |log| {
          assert r[k + 1] == log[k + 1];
        }
      }
    }
  }

  /** Folding any run of messages keeps a coalesced log coalesced, and the
      log grows by at most one entry per message and never shrinks. */
  lemma {:induction false} ReduceAllCoalesced(log: seq<Entry>, ms: seq<VapiMessage>)
    requires Coalesced(log)
    ensures Coalesced(ReduceAll(log, ms))
    ensures |log| <= |ReduceAll(log, ms)| <= |log| + |ms|
    decreases |ms|
  {
    if ms != [] {
      ReducePreservesCoalesced(log, ms[0]);
      ReduceAllCoalesced(Reduce(log, ms[0]), ms[1..]);
    }
  }

  /** "Hi" (partial), "Hi there" (partial), "Hi there" (final) from the user
      leave exactly one final entry. */
  lemma GreetingTrace()
    ensures ReduceAll([], [
      TranscriptMessage("user", "partial", "Hi"),
      TranscriptMessage("user", "partial", "Hi there"),
      TranscriptMessage("user", "final", "Hi there")])
      == [Entry("Hi there", "user", false)]
  {
    var m1 := TranscriptMessage("user", "partial", "Hi");
    var m2 := TranscriptMessage("user", "partial", "Hi there");
    var m3 := TranscriptMessage("user", "final", "Hi there");
    var l1 := [Entry("Hi", "user", true)];
    var l2 := [Entry("Hi there", "user", true)];
    var l3 := [Entry("Hi there", "user", false)];
    AppendCase([], m1);
    ReplaceCase(l1, m2);
    assert Reduce(l1, m2) == l2;
    ReplaceCase(l2, m3);
    assert Reduce(l2, m3) == l3;
    assert [m1, m2, m3][1..] == [m2, m3];
    assert [m2, m3][1..] == [m3];
    calc {
      ReduceAll([], [m1, m2, m3]);
      ReduceAll(l1, [m2, m3]);
      ReduceAll(l2, [m3]);
      ReduceAll(l3, []);
    }
  }

  /** A final message repeating a final entry's text is dropped. */
  lemma RepeatedFinalDropped(log: seq<Entry>, role: string, text: string)
    requires |log| > 0 && log[|log| - 1] == Entry(text, role, false)
    ensures Reduce(log, TranscriptMessage(role, "final", text)) == log
  {
  }
}
