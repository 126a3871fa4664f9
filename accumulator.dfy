/**
 * The placeholder accumulator: Word splits the text of a placeholder over
 * several runs, and this state machine glues the fragments back together
 * until it can tell that a placeholder (or plain text) is complete.
 */
module Accumulator {
  import opened Text
  import opened Seqs
  import opened Patterns

  /** `usize` arithmetic is modulo 2^64. */
  const USIZE_MODULUS: nat := 0x1_0000_0000_0000_0000

  /** `a - b` on `usize` with wrap-around (release build semantics). */
  function WrappingSub(a: nat, b: nat): (r: nat)
    ensures r < USIZE_MODULUS
    ensures b <= a < USIZE_MODULUS ==> r == a - b
    ensures a < b <= USIZE_MODULUS ==> r == USIZE_MODULUS - (b - a)
  {
    (a - b) % USIZE_MODULUS
  }

  datatype Mode = Uncertain | Simple | Multiline(depth: nat)

  datatype AccState =
    | Idle
    | Accumulating(acc: string, mode: Mode)
    | Done(text: string)

  /** The text the state holds. */
  function Payload(s: AccState): string
  {
    match s
    case Idle => ""
    case Accumulating(acc, _) => acc
    case Done(t) => t
  }

  /** `is_simple_placeholders_completely_closed`: as many `{{` as `}}`, with `usize` subtraction. */
  predicate IsSimplePlaceholdersCompletelyClosed(text: string)
  {
    WrappingSub(Count(text, "{{"), Count(text, "}}")) == 0
  }

  /** Below 2^64 characters the wrapping test is exactly equality of the two counts. */
  lemma ClosedIffCountsEqual(text: string)
    requires |text| < USIZE_MODULUS
    ensures IsSimplePlaceholdersCompletelyClosed(text) <==> Count(text, "{{") == Count(text, "}}")
  {
    CountBound(text, "{{");
    CountBound(text, "}}");
  }

  /** One call of `accumulate`. */
  function Transition(p: Patterns, s: AccState, text: string): (r: AccState)
    ensures !r.Idle?
    ensures s.Done? ==> r == s
    ensures s.Idle? ==> Payload(r) == text
    ensures s.Accumulating? ==> Payload(r) == s.acc + text
    ensures r.Accumulating? && r.mode.Multiline? && s.Accumulating? && s.mode.Multiline? ==> r.mode.depth > 0
  {
    match s
    case Idle =>
      if p.blockOpen(text) then Accumulating(text, Multiline(0))
      else if p.blockClose(text) || p.simple(text) || p.helper(text) then Done(text)
      else if Contains(text, "{") then Accumulating(text, Uncertain)
      else Done(text)
    case Accumulating(acc, Multiline(_)) =>
      var buf := acc + text;
      var stillOpen := WrappingSub(Count(buf, "{{#"), Count(buf, "{{/"));
      // an unsigned difference is never negative, so the source's third arm is dead
      if stillOpen > 0 then Accumulating(buf, Multiline(stillOpen)) else Done(buf)
    case Accumulating(acc, Simple) =>
      var buf := acc + text;
      if Contains(buf, "}}") && IsSimplePlaceholdersCompletelyClosed(buf) then Done(buf)
      else Accumulating(buf, Simple)
    case Accumulating(acc, Uncertain) =>
      var buf := acc + text;
      if p.blockOpen(buf) && p.blockClose(buf) then Done(buf)
      else if Contains(buf, "{{#") then Accumulating(buf, Multiline(0))
      else if p.simple(buf) then Done(buf)
      else if Contains(buf, "{{") then Accumulating(buf, Simple)
      else Done(buf)
    case Done(x) => Done(x)
  }

  /**
   * From Idle the fragment is kept whole. It starts accumulating exactly
   * when it opens a block, or matches no placeholder pattern and holds a
   * `{`; so text without a brace that opens no block is done at once.
   */
  lemma IdleStep(p: Patterns, text: string)
    ensures var r := Transition(p, Idle, text);
      && (r.Accumulating? <==>
            p.blockOpen(text) || (!p.blockClose(text) && !p.simple(text) && !p.helper(text) && Contains(text, "{")))
      && (r.Accumulating? ==> r.acc == text && (r.mode == Multiline(0) <==> p.blockOpen(text)))
      && (r.Accumulating? && r.mode.Uncertain? ==> Contains(text, "{"))
      && (r.Done? ==> r.text == text)
      && (!p.blockOpen(text) && !Contains(text, "{") ==> r == Done(text))
  {
  }

  /**
   * In Multiline mode the buffer is done exactly when it opens as many
   * blocks as it closes; otherwise the depth is the difference (wrapped
   * when more blocks are closed than opened).
   */
  lemma MultilineStep(p: Patterns, acc: string, depth: nat, text: string)
    requires |acc + text| < USIZE_MODULUS
    ensures var buf := acc + text;
      var o := Count(buf, "{{#");
      var c := Count(buf, "{{/");
      var r := Transition(p, Accumulating(acc, Multiline(depth)), text);
      && (r.Done? <==> o == c)
      && (r.Done? ==> r.text == buf)
      && (c < o ==> r == Accumulating(buf, Multiline(o - c)))
      && (o < c ==> r.Accumulating? && r.acc == buf && r.mode.Multiline? && r.mode.depth + (c - o) == USIZE_MODULUS)
  {
    CountBound(acc + text, "{{#");
    CountBound(acc + text, "{{/");
  }

  /** In Simple mode the buffer is done exactly when it holds `}}` and its braces are balanced in number. */
  lemma SimpleStep(p: Patterns, acc: string, text: string)
    requires |acc + text| < USIZE_MODULUS
    ensures var buf := acc + text;
      var r := Transition(p, Accumulating(acc, Simple), text);
      && (r.Done? <==> Contains(buf, "}}") && Count(buf, "{{") == Count(buf, "}}"))
      && (!r.Done? ==> r == Accumulating(buf, Simple))
  {
    ClosedIffCountsEqual(acc + text);
  }

  /**
   * Uncertain mode is left after one more fragment: the buffer is done, or
   * goes on as a block (depth 0, only when it holds `{{#`) or as a simple
   * placeholder (only when it holds `{{` but no `{{#` and is not yet a
   * simple placeholder). A buffer without `{{` is done.
   */
  lemma UncertainStep(p: Patterns, acc: string, text: string)
    ensures var buf := acc + text;
      var r := Transition(p, Accumulating(acc, Uncertain), text);
      && (r.Accumulating? ==> r.acc == buf && !r.mode.Uncertain?)
      && (r.Done? ==> r.text == buf)
      && (r.Accumulating? && r.mode.Multiline? ==> r.mode.depth == 0 && Contains(buf, "{{#"))
      && (r.Accumulating? && r.mode.Simple? ==> Contains(buf, "{{") && !Contains(buf, "{{#") && !p.simple(buf))
      && (Contains(buf, "{{#") && !(p.blockOpen(buf) && p.blockClose(buf)) ==> r == Accumulating(buf, Multiline(0)))
      && (!Contains(buf, "{{") ==> r == Done(buf))
  {
    var buf := acc + text;
    if Contains(buf, "{{#") {
      assert "{{#" == "{{" + "#";
      ContainsInitial(buf, "{{", "#");
    }
  }

  /** The state after feeding a chain of fragments, one `accumulate` call each. */
  function Feed(p: Patterns, s: AccState, frags: seq<string>): AccState
    decreases |frags|
  {
    if frags == [] then s else Transition(p, Feed(p, s, frags[..|frags| - 1]), frags[|frags| - 1])
  }

  /**
   * Until the machine is done, it holds the concatenation of every fragment
   * fed since the last reset, and the Done payload is that concatenation.
   */
  lemma {:induction false} FeedConcatenates(p: Patterns, frags: seq<string>)
    requires forall k :: 0 < k < |frags| ==> !Feed(p, Idle, frags[..k]).Done?
    ensures Payload(Feed(p, Idle, frags)) == Flatten(frags)
    decreases |frags|
  {
    if frags != [] {
      var init := frags[..|frags| - 1];
      forall k | 0 < k < |init|
        ensures !Feed(p, Idle, init[..k]).Done?
      {
        assert init[..k] == frags[..k];
      }
      FeedConcatenates(p, init);
      if init != [] {
        assert frags[..|init|] == init;
      }
    }
  }

  /** Once done, further fragments change nothing. */
  lemma {:induction false} FeedDoneAbsorbs(p: Patterns, s: AccState, frags: seq<string>)
    requires s.Done?
    ensures Feed(p, s, frags) == s
    decreases |frags|
  {
    if frags != [] {
      FeedDoneAbsorbs(p, s, frags[..|frags| - 1]);
    }
  }

  /** The accumulator object that `xml_to_token_vec` drives and resets. */
  class TemplateAccumulator {
    var state: AccState

    constructor ()
      ensures state == Idle
    {
      state := Idle;
    }

    /** `accumulate`: replaces the state by its successor under the fragment. */
    method Accumulate(p: Patterns, text: string)
      modifies this
      ensures state == Transition(p, old(state), text)
    {
      state := Transition(p, state, text);
    }

    /** `reset` */
    method Reset()
      modifies this
      ensures state == Idle
    {
      state := Idle;
    }
  }
}
