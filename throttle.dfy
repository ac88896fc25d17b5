/** The sampling gate of `SKWG_D3D11_Pipeline::run`: a new sample is taken
    only when the stored `last_update` is below `now - update_freq`, the
    subtraction done on unsigned 32-bit milliseconds. */
module Throttle {

  import opened DWords

  /** `update_freq`, in milliseconds. Once the clock reads at least 4, two
      samples must lie strictly more than 4 ms apart (`Cadence`). Below a
      reading of 4, a sample at or before `now` imposes no spacing; across a
      wrap the gate spaces like the wrap-safe one (`BelowFourCharacterised`). */
  const UpdateFreq: DWord := 4

  /** The gate exactly as the code writes it: `last_update < dwNow - update_freq`.
      On integers: for a reading of at least 4, strictly more than 4 ms after
      `last`; for a reading below 4 the subtraction wraps to nearly 2^32. */
  predicate Accepts(last: DWord, now: DWord)
    ensures Accepts(last, now) <==>
      if UpdateFreq <= now then now as int - last as int > UpdateFreq as int
      else last as int < now as int + Modulus - UpdateFreq as int
  {
    last < WrapSub(now, UpdateFreq)
  }

  /** The first case of `Accepts`' contract, with its corollary: once the clock
      reads at least `update_freq`, the gate accepts iff strictly more than
      `update_freq` milliseconds separate `last` from `now`, so a `last` later
      than `now` is always rejected. */
  lemma AcceptsIffElapsed(last: DWord, now: DWord)
    requires UpdateFreq <= now
    ensures Accepts(last, now) <==> now as int - last as int > UpdateFreq as int
    ensures last > now ==> !Accepts(last, now)
  {
  }

  /** The second case of `Accepts`' contract, with its corollary: for a clock
      reading below `update_freq` the subtraction wraps to nearly 2^32, so
      every `last` below 2^32 - 4 is accepted. */
  lemma AcceptsWhenClockSmall(last: DWord, now: DWord)
    requires now < UpdateFreq
    ensures Accepts(last, now) <==> last as int < now as int + Modulus - UpdateFreq as int
    ensures last as int < Modulus - UpdateFreq as int ==> Accepts(last, now)
  {
  }

  /** From the initial `last_update = 0` the first call is accepted at every
      clock reading except exactly `update_freq`. */
  lemma FirstCallAccepts(now: DWord)
    ensures Accepts(0, now) <==> now != UpdateFreq
  {
  }

  /** After a sample at time `t >= update_freq` (so `last = t`), the next
      `update_freq` milliseconds are all rejected, including `t + update_freq`
      itself because the comparison is strict: samples lie strictly more than
      `update_freq` apart. `t + update_freq + 1` is accepted when it does not
      wrap. */
  lemma Cadence(t: DWord)
    requires UpdateFreq <= t
    ensures forall now: DWord :: t <= now && now as int <= t as int + UpdateFreq as int ==> !Accepts(t, now)
    ensures t as int + UpdateFreq as int + 1 < Modulus ==> Accepts(t, (t as int + UpdateFreq as int + 1) as DWord)
  {
  }

  /** A wrap-safe reference gate: more than `update_freq` milliseconds have
      elapsed, measured by wrap-around subtraction `now - last`. */
  predicate ElapsedExceeds(last: DWord, now: DWord)
  {
    WrapSub(now, last) > UpdateFreq
  }

  /** When the clock reads at least `update_freq` and no wrap lies between
      `last` and `now`, the code's gate and the wrap-safe reference gate agree. */
  lemma AgreesWithoutWrap(last: DWord, now: DWord)
    requires UpdateFreq <= now && last <= now
    ensures Accepts(last, now) <==> ElapsedExceeds(last, now)
  {
  }

  /** Below a reading of `update_freq` the two gates disagree even without a
      wrap: 1 ms after a sample at 1 the code's gate accepts. And a reading
      below 4 just after a wrap can be accepted, so the gate can recover there. */
  lemma SmallClockExamples()
    ensures Accepts(1, 2) && !ElapsedExceeds(1, 2)
    ensures Accepts(0xFFFF_FFF0, 0)
  {
  }

  /** Below a reading of `update_freq`, the code's gate is the wrap-safe gate
      except that any `last` at or before `now` passes: a sample taken shortly
      before the wrap still blocks the first readings after it. */
  lemma BelowFourCharacterised(last: DWord, now: DWord)
    requires now < UpdateFreq
    ensures Accepts(last, now) <==> last <= now || ElapsedExceeds(last, now)
  {
  }

  lemma BelowFourExamples()
    ensures !Accepts(0xFFFF_FFFF, 2) && !Accepts(0xFFFF_FFFC, 0)
    ensures Accepts(0xFFFF_FFFB, 0)
  {
  }

  /** After a clock wrap, every reading with `update_freq <= now < last` is
      rejected, although the wrapped elapsed time exceeds `update_freq`. Only a reading below `update_freq` (see
      `BelowFourCharacterised`) or a reading above `last + update_freq`, one
      full clock cycle (about 49.7 days) later, is accepted again; for a `last`
      of 0xFFFFFFFF no reading is (`PermanentStall`). */
  lemma StallAfterWrap(last: DWord, now: DWord)
    requires UpdateFreq <= now < last
    ensures !Accepts(last, now)
    ensures ElapsedExceeds(last, now)
  {
  }

  /** A sample at 0xFFFFFFFE followed by a reading of 100 ms (102 ms later) is
      rejected. */
  lemma StallAfterWrapExample()
    ensures !Accepts(0xFFFF_FFFE, 100) && ElapsedExceeds(0xFFFF_FFFE, 100)
    ensures WrapSub(100, 0xFFFF_FFFE) == 102
  {
  }

  /** A sample stored at 0xFFFFFFFF is never followed by another one: no reading
      passes the gate, while the wrap-safe gate accepts every reading from 4 ms
      after the wrap until the clock comes round to 0xFFFFFFFF again. */
  lemma PermanentStall(now: DWord)
    ensures !Accepts(0xFFFF_FFFF, now)
    ensures UpdateFreq <= now < 0xFFFF_FFFF ==> ElapsedExceeds(0xFFFF_FFFF, now)
  {
  }

  /** Stored at 0xFFFFFFFE, the gate passes exactly one reading ever: 3. */
  lemma NearPermanentStall(now: DWord)
    ensures Accepts(0xFFFF_FFFE, now) <==> now == 3
  {
  }
}
