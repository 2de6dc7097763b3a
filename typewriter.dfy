/**
 * The hero typewriter: a timer callback that types a phrase one character per
 * tick, then deletes it and moves on to the next phrase, round and round.
 * The slice end runs eight past the phrase length before deleting starts and
 * `slice` clamps it to the length, so a phrase of length `L` stays whole on
 * its last nine typing ticks and first ten deleting ticks, nineteen in a row;
 * only after that does each tick remove one character.
 *
 * `Next` is one tick on the four closure variables, as a value; the class
 * `Typewriter` holds the same variables as fields and its `Tick` method
 * updates them in place, proved to agree with `Next`. The lemmas then follow
 * the state through whole typing and deleting runs.
 */
module Typewriter {
  import opened JsText

  /** The phrases the page cycles through. */
  const Phrases: seq<string> := ["Technology", "Programming", "Projects", "Artificial intelligence", "Science and analytics"]

  /** The closure state: the phrase index, the text last shown, whether the
      phrase is being deleted, and the slice end the next tick uses. */
  datatype Session = Session(i: nat, txt: string, del: bool, pos: int)

  /** The state before the first tick. */
  const Start := Session(0, "", false, 0)

  /** How far past the phrase length the typing slice end runs before
      deleting starts. */
  const Pause := 8

  /** The bounds every reachable state keeps: the index names a phrase, a
      typing slice end lies in `[-1, length + 8]`, a deleting one in
      `[0, length + 9]`. */
  predicate Inv(words: seq<string>, s: Session) {
    s.i < |words|
    && (!s.del ==> -1 <= s.pos <= |words[s.i]| + Pause)
    && (s.del ==> 0 <= s.pos <= |words[s.i]| + Pause + 1)
  }

  /** One tick: show `target.slice(0, pos)`, step `pos` up while typing or
      down while deleting, start deleting once `pos` passes the pause, and
      after the last deletion move to the next phrase, wrapping around. The
      text shown is always a prefix of the phrase read at the start. */
  function Next(words: seq<string>, s: Session): (t: Session)
    requires s.i < |words|
    ensures t.txt <= words[s.i]
    ensures t.i < |words|
  {
    var target := words[s.i];
    var txt := SliceTo(target, s.pos);
    if !s.del then
      var pos := s.pos + 1;
      Session(s.i, txt, pos > |target| + Pause, pos)
    else
      var pos := s.pos - 1;
      if pos < 0 then Session((s.i + 1) % |words|, txt, false, pos)
      else Session(s.i, txt, true, pos)
  }

  /** `txt || ' '`: what the element shows. It is never empty, and it is the
      text itself whenever that is not empty. */
  function Display(txt: string): (r: string)
    ensures r != ""
    ensures txt != "" ==> r == txt
    ensures txt == "" ==> r == " "
  {
    if txt == "" then " " else txt
  }

  /** The delay before the next tick, in milliseconds. */
  function Delay(del: bool): (ms: nat)
    ensures del ==> ms == 60
    ensures !del ==> ms == 90
  {
    if del then 60 else 90
  }

  /** The start state keeps the bounds whenever there is a phrase. */
  lemma StartInv(words: seq<string>)
    requires |words| > 0
    ensures Inv(words, Start)
  {
  }

  /** Every tick keeps the bounds. */
  lemma NextInv(words: seq<string>, s: Session)
    requires Inv(words, s)
    ensures Inv(words, Next(words, s))
  {
  }

  /** Deleting starts only on the typing tick that takes `pos` past the
      phrase length plus the pause, and stops only on the deleting tick that
      takes `pos` below zero, which is also the only tick that changes the
      phrase: it moves to the next one, wrapping around, with `pos` at -1. */
  lemma PhaseChanges(words: seq<string>, s: Session)
    requires Inv(words, s)
    ensures !s.del && Next(words, s).del <==> !s.del && s.pos + 1 > |words[s.i]| + Pause
    ensures s.del && !Next(words, s).del <==> s.del && s.pos - 1 < 0
    ensures s.del && s.pos - 1 < 0 ==> Next(words, s).i == (s.i + 1) % |words| && Next(words, s).pos == -1
    ensures !(s.del && s.pos - 1 < 0) ==> Next(words, s).i == s.i
  {
  }

  /** Away from the ends, a tick shows exactly `pos` characters of the
      phrase, or all of it once `pos` reaches its length. */
  lemma ShownLength(words: seq<string>, s: Session)
    requires s.i < |words| && 0 <= s.pos
    ensures |Next(words, s).txt| == if s.pos < |words[s.i]| then s.pos else |words[s.i]|
  {
  }

  /** Right after a phrase change `pos` is -1, and the next tick evaluates
      `slice(0, -1)`: it shows the new phrase without its last character
      before typing starts again from the empty text. */
  lemma TickAfterPhraseChange(words: seq<string>, s: Session)
    requires s.i < |words| && !s.del && s.pos == -1 && words[s.i] != ""
    ensures Next(words, s).txt == words[s.i][..|words[s.i]| - 1]
    ensures Next(words, Next(words, s)).txt == ""
  {
  }

  /** `n` ticks from `s`. */
  function Iterate(words: seq<string>, s: Session, n: nat): (t: Session)
    requires s.i < |words|
    ensures t.i < |words|
    decreases n
  {
    if n == 0 then s else Iterate(words, Next(words, s), n - 1)
  }

  /** Ticking `a` times and then `b` times is ticking `a + b` times. */
  lemma {:induction false} IterateAdd(words: seq<string>, s: Session, a: nat, b: nat)
    requires s.i < |words|
    ensures Iterate(words, s, a + b) == Iterate(words, Iterate(words, s, a), b)
    decreases a
  {
    if a > 0 {
      IterateAdd(words, Next(words, s), a - 1, b);
    }
  }

  /** While typing, `n` ticks show the phrase up to `pos + n - 1`, keep the
      phrase, and turn deleting on only when `pos` has passed the pause. */
  lemma {:induction false} TypingRun(words: seq<string>, s: Session, n: nat)
    requires s.i < |words| && !s.del && -1 <= s.pos
    requires 1 <= n && s.pos + n <= |words[s.i]| + Pause + 1
    ensures Iterate(words, s, n)
         == Session(s.i, SliceTo(words[s.i], s.pos + n - 1), s.pos + n > |words[s.i]| + Pause, s.pos + n)
    decreases n
  {
    if n > 1 {
      TypingRun(words, Next(words, s), n - 1);
    }
  }

  /** While deleting, `n` ticks show the phrase up to `pos - n + 1`; the
      tick that takes `pos` below zero stops deleting and moves to the next
      phrase. */
  lemma {:induction false} DeletingRun(words: seq<string>, s: Session, n: nat)
    requires s.i < |words| && s.del
    requires 1 <= n && s.pos - n >= -1
    ensures Iterate(words, s, n)
         == if s.pos - n < 0 then Session((s.i + 1) % |words|, SliceTo(words[s.i], s.pos - n + 1), false, -1)
            else Session(s.i, SliceTo(words[s.i], s.pos - n + 1), true, s.pos - n)
    decreases n
  {
    if n > 1 {
      DeletingRun(words, Next(words, s), n - 1);
    }
  }

  /** A whole cycle: from the typing state a phrase change leaves behind, a
      phrase of length `L` takes `L + 10` ticks to type and hold and `L + 10`
      ticks to delete, and ends in the same state on the next phrase. */
  lemma PhraseCycle(words: seq<string>, s: Session)
    requires s.i < |words| && !s.del && s.pos == -1
    ensures Iterate(words, s, 2 * |words[s.i]| + 2 * Pause + 4)
         == Session((s.i + 1) % |words|, "", false, -1)
  {
    var len := |words[s.i]| + Pause + 2;
    TypingRun(words, s, len);
    var m := Iterate(words, s, len);
    DeletingRun(words, m, len);
    IterateAdd(words, s, len, len);
  }

  /** After a phrase change, a phrase of length `L` is shown whole on ticks
      `L + 2` through `L + 2 * Pause + 4` (nineteen ticks, the typing ticks
      whose slice end has reached the length and the deleting ticks whose
      slice end is still at least the length), and the tick after those shows
      it short by one character. */
  lemma HoldLength(words: seq<string>, s: Session, k: nat)
    requires s.i < |words| && !s.del && s.pos == -1
    requires k <= 2 * Pause + 2
    ensures Iterate(words, s, |words[s.i]| + 2 + k).txt == words[s.i]
    ensures words[s.i] != "" ==>
      Iterate(words, s, |words[s.i]| + 2 * Pause + 5).txt == words[s.i][..|words[s.i]| - 1]
  {
    var up := |words[s.i]| + Pause + 2;
    TypingRun(words, s, up);
    var m := Iterate(words, s, up);
    if k <= Pause {
      TypingRun(words, s, |words[s.i]| + 2 + k);
    } else {
      DeletingRun(words, m, k - Pause);
      IterateAdd(words, s, up, k - Pause);
    }
    if words[s.i] != "" {
      DeletingRun(words, m, Pause + 3);
      IterateAdd(words, s, up, Pause + 3);
    }
  }

  /** The first phrase: from the start state it takes `L + 9` ticks to type
      and hold and `L + 10` to delete. */
  lemma FirstCycle(words: seq<string>)
    requires |words| > 0
    ensures Iterate(words, Start, 2 * |words[0]| + 2 * Pause + 3)
         == Session(1 % |words|, "", false, -1)
  {
    var up := |words[0]| + Pause + 1;
    TypingRun(words, Start, up);
    var m := Iterate(words, Start, up);
    DeletingRun(words, m, up + 1);
    IterateAdd(words, Start, up, up + 1);
  }

  /** The element the typewriter writes into, with the closure variables of
      the callback as fields. */
  class Typewriter {
    const words: seq<string>
    var i: nat
    var txt: string
    var del: bool
    var pos: int
    /** The element's text content. */
    var shown: string

    function State(): Session
      reads this
    {
      Session(i, txt, del, pos)
    }

    predicate Valid()
      reads this
    {
      Inv(words, State())
    }

    /** The closure's initial state, over an element showing `content`. */
    constructor(words: seq<string>, content: string)
      requires |words| > 0
      ensures this.words == words && State() == Start && shown == content
      ensures Valid()
    {
      this.words := words;
      i, txt, del, pos := 0, "", false, 0;
      shown := content;
    }

    /** `tick`: one step of the state, the element updated, and the delay
        before the next tick returned. */
    method Tick() returns (delay: nat)
      requires Valid()
      modifies this
      ensures Valid()
      ensures State() == Next(words, old(State()))
      ensures shown == Display(txt)
      ensures delay == Delay(del)
    {
      NextInv(words, State());
      var target := words[i];
      if !del {
        txt := SliceTo(target, pos);
        pos := pos + 1;
        if pos > |target| + Pause {
          del := true;
        }
      } else {
        txt := SliceTo(target, pos);
        pos := pos - 1;
        if pos < 0 {
          del := false;
          i := (i + 1) % |words|;
        }
      }
      shown := if txt == "" then " " else txt;
      delay := if del then 60 else 90;
    }
  }
}
