/** The Fiat-Shamir challenger.  What it returns depends only on what it has seen, so it is a log of
    events together with arbitrary functions of that log. */
module Transcripts {
  import opened Bits

  /** An extension element is this many base-field samples. */
  const EXT_DEGREE: nat := 4

  datatype Event<F, C, W> =
    | SawCommit(commit: C) | SawExt(value: F) | SawWitness(pow: W) | DrewExt | DrewBits(width: nat)

  type Transcript<F, C, W> = seq<Event<F, C, W>>

  /** The sponge behind the challenger: samples, and the proof-of-work search and check. */
  datatype Sponge<!F(!new), !C(!new), !W(!new)> = Sponge(
    ext: (Transcript<F, C, W>, nat) -> F,
    bits: (Transcript<F, C, W>, nat) -> nat,
    grind: (Transcript<F, C, W>, nat) -> W,
    check: (Transcript<F, C, W>, nat, W) -> bool)
  {
    function Ext(t: Transcript<F, C, W>): F { ext(t, EXT_DEGREE) }
    function Bits(t: Transcript<F, C, W>, n: nat): nat { bits(t, n) }
    function Grind(t: Transcript<F, C, W>, n: nat): W { grind(t, n) }
    function Check(t: Transcript<F, C, W>, n: nat, w: W): bool { check(t, n, w) }

    /** Sampled indices have the requested width, and grinding finds a witness that checks. */
    ghost predicate Laws() {
      && (forall t, n: nat :: Bits(t, n) < Pow2(n))
      && (forall t, n: nat :: Check(t, n, Grind(t, n)))
    }
  }

  class Challenger<F(!new), C(!new), W(!new)> {
    const sponge: Sponge<F, C, W>
    var log: Transcript<F, C, W>

    constructor (sponge: Sponge<F, C, W>, log: Transcript<F, C, W>)
      ensures this.sponge == sponge && this.log == log
    { this.sponge := sponge; this.log := log; }

    method Observe(c: C)
      modifies this
      ensures log == old(log) + [SawCommit(c)]
    { log := log + [SawCommit(c)]; }

    method ObserveExt(x: F)
      modifies this
      ensures log == old(log) + [SawExt(x)]
    { log := log + [SawExt(x)]; }

    method SampleExt() returns (x: F)
      modifies this
      ensures x == sponge.Ext(old(log)) && log == old(log) + [DrewExt]
    { x := sponge.Ext(log); log := log + [DrewExt]; }

    method SampleBits(n: nat) returns (i: nat)
      modifies this
      ensures i == sponge.Bits(old(log), n) && log == old(log) + [DrewBits(n)]
    { i := sponge.Bits(log, n); log := log + [DrewBits(n)]; }

    method Grind(n: nat) returns (w: W)
      modifies this
      ensures w == sponge.Grind(old(log), n) && log == old(log) + [SawWitness(w)]
    { w := sponge.Grind(log, n); log := log + [SawWitness(w)]; }

    method CheckWitness(n: nat, w: W) returns (ok: bool)
      modifies this
      ensures ok == sponge.Check(old(log), n, w) && log == old(log) + [SawWitness(w)]
    { ok := sponge.Check(log, n, w); log := log + [SawWitness(w)]; }
  }
}
