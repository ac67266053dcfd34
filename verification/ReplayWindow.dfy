/** The 1024-bit anti-replay bitmap of a session: sixteen 64-bit words, newest
    sequence at bit 0, shifted towards the high words as newer sequences arrive. */
module ReplayWindow {
  import opened Base
  import opened Word64

  const WINDOW_SIZE := 1024
  const WORDS := 16

  // ---------------------------------------------------------------- specification

  /** The rule the bitmap implements, over the set of every sequence accepted so far:
      `s` passes unless it was accepted before or lies 1024 or more behind some
      accepted sequence. */
  predicate Acceptable(accepted: set<U64>, s: U64) {
    forall a | a in accepted :: a != s && a - s < WINDOW_SIZE
  }

  function Accept(accepted: set<U64>, s: U64): set<U64> {
    if Acceptable(accepted, s) then accepted + {s} else accepted
  }

  /** The set accepted by a whole run of `accept` calls on a new window. */
  function AcceptedBy(run: seq<U64>): set<U64> {
    if run == [] then {} else Accept(AcceptedBy(run[..|run| - 1]), run[|run| - 1])
  }

  /** The verdict on the `i`-th call of a run. */
  predicate Verdict(run: seq<U64>, i: nat)
    requires i < |run|
  {
    Acceptable(AcceptedBy(run[..i]), run[i])
  }

  ghost predicate IsHighest(h: U64, accepted: set<U64>) {
    h in accepted && forall a | a in accepted :: a <= h
  }

  /** A run's accepted set holds exactly the sequences some call said yes to. */
  lemma {:induction false} AcceptedByVerdicts(run: seq<U64>, s: U64)
    ensures s in AcceptedBy(run) <==> exists i: nat :: i < |run| && Verdict(run, i) && run[i] == s
  {
    if run != [] {
      var last := |run| - 1;
      var before := run[..last];
      AcceptedByVerdicts(before, s);
      forall i: nat | i < last ensures Verdict(run, i) == Verdict(before, i) {
        assert run[..i] == before[..i];
      }
      if s in AcceptedBy(before) {
        var i: nat :| i < |before| && Verdict(before, i) && before[i] == s;
        assert Verdict(run, i) && run[i] == s;
      }
      if s in AcceptedBy(run) && s !in AcceptedBy(before) {
        assert Verdict(run, last) && run[last] == s;
      }
    }
  }

  /** Over any run, whatever the order, loss and duplication of its calls: no sequence
      is accepted twice, and call `j` is accepted exactly when no earlier accepted call
      carried the same sequence or one 1024 or more ahead. */
  lemma {:induction false} RunIsExact(run: seq<U64>, j: nat)
    requires j < |run|
    ensures forall i: nat | i < j :: Verdict(run, i) && Verdict(run, j) ==> run[i] != run[j]
    ensures Verdict(run, j) <==>
            forall i: nat | i < j && Verdict(run, i) :: run[i] != run[j] && run[i] - run[j] < WINDOW_SIZE
  {
    var before := run[..j];
    forall i: nat | i < j ensures Verdict(run, i) == Verdict(before, i) {
      assert run[..i] == before[..i];
    }
    forall i: nat | i < j && Verdict(run, i) ensures run[i] in AcceptedBy(before) {
      assert Verdict(before, i) && before[i] == run[i];
      AcceptedByVerdicts(before, run[i]);
    }
    forall a | a in AcceptedBy(before) ensures exists i: nat :: i < j && Verdict(run, i) && run[i] == a {
      AcceptedByVerdicts(before, a);
      var i: nat :| i < |before| && Verdict(before, i) && before[i] == a;
      assert Verdict(run, i) && run[i] == a;
    }
  }

  /** The rule by the highest accepted sequence alone. */
  lemma {:induction false} AcceptableByHighest(accepted: set<U64>, h: U64, s: U64)
    requires IsHighest(h, accepted)
    ensures Acceptable(accepted, s) <==> s > h || (h - s < WINDOW_SIZE && s !in accepted)
  {
  }

  // ---------------------------------------------------------------- the bitmap

  /** Bit `d` of the sixteen words taken as one 1024-bit number. */
  predicate BitAt(words: seq<U64>, d: nat)
    requires |words| == WORDS && d < WINDOW_SIZE
  {
    Bit(words[d / 64], d % 64)
  }

  /** What the shift writes into word `index`. */
  function ShiftedWord(old_: seq<U64>, wordShift: nat, bitShift: nat, index: nat): U64
    requires |old_| == WORDS && wordShift <= index < WORDS && bitShift < 64
  {
    OrWord(0, Shl(old_[index - wordShift], bitShift));
    var low := Or(0, Shl(old_[index - wordShift], bitShift));
    if bitShift != 0 && index > wordShift then
      OrWord(low, Shr(old_[index - wordShift - 1], 64 - bitShift));
      Or(low, Shr(old_[index - wordShift - 1], 64 - bitShift))
    else
      low
  }

  lemma {:induction false} ShiftedWordBit(old_: seq<U64>, wordShift: nat, bitShift: nat, index: nat, i: nat)
    requires |old_| == WORDS && wordShift <= index < WORDS && bitShift < 64 && i < 64
    ensures Bit(ShiftedWord(old_, wordShift, bitShift, index), i) <==>
            if i >= bitShift then Bit(old_[index - wordShift], i - bitShift)
            else index > wordShift && Bit(old_[index - wordShift - 1], i + 64 - bitShift)
  {
    var below := old_[index - wordShift];
    BitOr(0, Shl(below, bitShift), i);
    BitZero(i);
    BitShl(below, bitShift, i);
    if bitShift != 0 && index > wordShift {
      var carried := old_[index - wordShift - 1];
      BitOr(Or(0, Shl(below, bitShift)), Shr(carried, 64 - bitShift), i);
      BitShr(carried, 64 - bitShift, i);
      if i >= bitShift {
        WordIsPow2();
        BitAbove(carried, 64, i + 64 - bitShift);
      }
    }
  }

  /** Word and bit of a distance after a shift, with the borrow between them. */
  lemma {:induction false} SplitDistance(d: nat, shift: nat)
    requires shift <= d
    ensures d % 64 >= shift % 64 ==>
              (d - shift) / 64 == d / 64 - shift / 64 && (d - shift) % 64 == d % 64 - shift % 64
    ensures d % 64 < shift % 64 ==>
              (d - shift) / 64 == d / 64 - shift / 64 - 1 && (d - shift) % 64 == d % 64 + 64 - shift % 64
  {
  }

  /** The words after a shift hold every bit `shift` places higher, across word borders. */
  lemma {:induction false} ShiftedBit(old_: seq<U64>, shift: nat, d: nat)
    requires |old_| == WORDS && shift < WINDOW_SIZE && d < WINDOW_SIZE && shift / 64 <= d / 64
    ensures Bit(ShiftedWord(old_, shift / 64, shift % 64, d / 64), d % 64)
       <==> d >= shift && BitAt(old_, d - shift)
  {
    ShiftedWordBit(old_, shift / 64, shift % 64, d / 64, d % 64);
    if d >= shift {
      SplitDistance(d, shift);
    }
  }

  /** The bitmap shows exactly the accepted sequences of the last 1024. */
  ghost predicate Mirrors(words: seq<U64>, h: U64, accepted: set<U64>) {
    && |words| == WORDS
    && IsHighest(h, accepted)
    && forall d: nat | d < WINDOW_SIZE :: BitAt(words, d) <==> h - d in accepted
  }

  /** `after` is `before` with every bit moved `shift` places up and zeros moved in. */
  ghost predicate MovedUp(before: seq<U64>, after: seq<U64>, shift: nat) {
    && |before| == WORDS && |after| == WORDS
    && forall d: nat | d < WINDOW_SIZE :: BitAt(after, d) <==> d >= shift && BitAt(before, d - shift)
  }

  /** `after` is `before` with bit `distance` set. */
  ghost predicate WithBit(before: seq<U64>, after: seq<U64>, distance: nat) {
    && |before| == WORDS && |after| == WORDS
    && forall d: nat | d < WINDOW_SIZE :: BitAt(after, d) <==> d == distance || BitAt(before, d)
  }

  lemma {:induction false} NewerAccept(before: seq<U64>, moved: seq<U64>, after: seq<U64>, h: U64, s: U64, accepted: set<U64>)
    requires Mirrors(before, h, accepted) && h < s
    requires MovedUp(before, moved, s - h) && WithBit(moved, after, 0)
    ensures Mirrors(after, s, accepted + {s})
  {
  }

  lemma {:induction false} WithinAccept(before: seq<U64>, after: seq<U64>, h: U64, s: U64, accepted: set<U64>)
    requires Mirrors(before, h, accepted) && s <= h && h - s < WINDOW_SIZE
    requires WithBit(before, after, h - s)
    ensures Mirrors(after, h, accepted + {s})
  {
  }

  lemma {:induction false} FirstAccept(words: seq<U64>, s: U64)
    requires |words| == WORDS && words[0] == 1 && forall i | 1 <= i < WORDS :: words[i] == 0
    ensures Mirrors(words, s, {s})
  {
    forall d: nat | d < WINDOW_SIZE ensures BitAt(words, d) <==> d == 0 {
      BitZero(d % 64);
      BitOne(d % 64);
    }
  }

  class Window {
    var highest: Option<U64>
    var bits: array<U64>
    /** Every sequence ever accepted; the bitmap forgets, this does not. */
    ghost var accepted: set<U64>

    ghost predicate Valid()
      reads this, bits
    {
      && bits.Length == WORDS
      && match highest
         case None => accepted == {} && forall i | 0 <= i < WORDS :: bits[i] == 0
         case Some(h) => Mirrors(bits[..], h, accepted)
    }

    constructor ()
      ensures Valid() && accepted == {} && fresh(bits)
    {
      highest := None;
      bits := new U64[WORDS](_ => 0);
      accepted := {};
    }

    method Accept(sequence: U64) returns (ok: bool)
      requires Valid()
      modifies this, bits
      ensures Valid() && bits == old(bits)
      ensures ok <==> Acceptable(old(accepted), sequence)
      ensures accepted == if ok then old(accepted) + {sequence} else old(accepted)
    {
      match highest
      case None =>
        highest := Some(sequence);
        bits[0] := 1;
        accepted := {sequence};
        assert Mirrors(bits[..], sequence, accepted) by { FirstAccept(bits[..], sequence); }
        return true;
      case Some(h) =>
        AcceptableByHighest(accepted, h, sequence);
        if sequence > h {
          var shift := sequence - h;
          ghost var before := bits[..];
          ShiftLeft(shift);
          ghost var moved := bits[..];
          SetBit(0);
          NewerAccept(before, moved, bits[..], h, sequence, accepted);
          highest := Some(sequence);
          accepted := accepted + {sequence};
          return true;
        } else {
          var distance := h - sequence;
          if distance >= WINDOW_SIZE {
            return false;
          }
          var word := distance / 64;
          var bit := distance % 64;
          TestBit(bits[word], bit);
          assert BitAt(bits[..], distance) <==> h - distance in accepted;
          if And(bits[word], Shl(1, bit)) != 0 {
            return false;
          }
          ghost var before := bits[..];
          SetBit(distance);
          WithinAccept(before, bits[..], h, sequence, accepted);
          accepted := accepted + {sequence};
          return true;
        }
    }

    /** Sets one bit of the bitmap and no other. */
    method SetBit(distance: nat)
      requires bits.Length == WORDS && distance < WINDOW_SIZE
      modifies bits
      ensures WithBit(old(bits[..]), bits[..], distance)
    {
      var word := distance / 64;
      var bit := distance % 64;
      ghost var before := bits[..];
      OrWord(bits[word], Shl(1, bit));
      bits[word] := Or(bits[word], Shl(1, bit));
      forall d: nat | d < WINDOW_SIZE ensures BitAt(bits[..], d) <==> d == distance || BitAt(before, d) {
        if d / 64 == word {
          BitOr(before[word], Shl(1, bit), d % 64);
          BitShl(1, bit, d % 64);
          if bit <= d % 64 {
            BitOne(d % 64 - bit);
          }
        }
      }
    }

    method ShiftLeft(shift: nat)
      requires bits.Length == WORDS
      modifies bits
      ensures MovedUp(old(bits[..]), bits[..], shift)
    {
      ghost var before := bits[..];
      if shift >= WINDOW_SIZE {
        forall i | 0 <= i < bits.Length { bits[i] := 0; }
        forall d: nat | d < WINDOW_SIZE ensures !BitAt(bits[..], d) {
          BitZero(d % 64);
        }
        return;
      }
      var wordShift := shift / 64;
      var bitShift := shift % 64;
      var was := bits[..];
      forall i | 0 <= i < bits.Length { bits[i] := 0; }
      for index := WORDS downto wordShift
        invariant forall j | 0 <= j < index :: bits[j] == 0
        invariant forall j | index <= j < WORDS :: bits[j] == ShiftedWord(was, wordShift, bitShift, j)
      {
        OrWord(bits[index], Shl(was[index - wordShift], bitShift));
        bits[index] := Or(bits[index], Shl(was[index - wordShift], bitShift));
        if bitShift != 0 && index > wordShift {
          OrWord(bits[index], Shr(was[index - wordShift - 1], 64 - bitShift));
          bits[index] := Or(bits[index], Shr(was[index - wordShift - 1], 64 - bitShift));
        }
      }
      forall d: nat | d < WINDOW_SIZE
        ensures BitAt(bits[..], d) <==> d >= shift && BitAt(before, d - shift)
      {
        if d / 64 < wordShift {
          BitZero(d % 64);
        } else {
          ShiftedBit(before, shift, d);
        }
      }
    }
  }
}
