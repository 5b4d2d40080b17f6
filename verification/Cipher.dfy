/**
 The encrypted channel's two ends and the adversary between them.

 AES-GCM is taken as an ideal authenticated cipher: opening succeeds exactly on a value that was
 sealed under the same key and nonce, and gives back its plaintext. Nonces follow section 3.2 of
 RFC 5116 with a deterministic counter (section 8.2.1 of NIST SP 800-38D).
 */
module Cipher {
  import opened Options

  newtype byte = x: int | 0 <= x < 256
  type Key = nat
  type Frame = (byte, seq<byte>)

  const MaxUint64: nat := 0xFFFF_FFFF_FFFF_FFFF
  const MaxWireMessage: nat := 131072
  const Overhead: nat := 16

  datatype Ciphertext = Sealed(key: Key, nonce: seq<byte>, plain: seq<byte>) | Forged(bytes: seq<byte>)

  function WireLength(c: Ciphertext): nat {
    match c case Sealed(_, _, plain) => |plain| + Overhead case Forged(bytes) => |bytes|
  }

  function IdealOpen(key: Key, nonce: seq<byte>, c: Ciphertext): Option<seq<byte>> {
    if c.Sealed? && c.key == key && c.nonce == nonce then Some(c.plain) else None
  }

  // ----- nonces -----

  function BigEndian(n: nat, width: nat): (s: seq<byte>)
    ensures |s| == width
  {
    if width == 0 then [] else BigEndian(n / 256, width - 1) + [(n % 256) as byte]
  }

  function CounterNonce(counter: nat): seq<byte> {
    [0, 0, 0, 0] + BigEndian(counter, 8)
  }

  function Power256(width: nat): nat {
    if width == 0 then 1 else 256 * Power256(width - 1)
  }

  lemma {:induction false} BigEndianInjective(a: nat, b: nat, width: nat)
    requires a < Power256(width) && b < Power256(width) && BigEndian(a, width) == BigEndian(b, width)
    ensures a == b
  {
    if width > 0 {
      var (x, y) := (BigEndian(a, width), BigEndian(b, width));
      assert BigEndian(a / 256, width - 1) == x[..width - 1] == y[..width - 1] == BigEndian(b / 256, width - 1);
      assert x[width - 1] == y[width - 1];
      BigEndianInjective(a / 256, b / 256, width - 1);
    }
  }

  /** No two 64-bit counters share a nonce, and every nonce has the 12 bytes GCM asks for. */
  lemma CounterNonceInjective(a: nat, b: nat)
    requires a <= MaxUint64 && b <= MaxUint64
    ensures |CounterNonce(a)| == 12
    ensures CounterNonce(a) == CounterNonce(b) ==> a == b
  {
    assert Power256(4) == 0x1_0000_0000;
    assert Power256(8) == 0x1_0000_0000_0000_0000;
    if CounterNonce(a) == CounterNonce(b) {
      assert BigEndian(a, 8) == CounterNonce(a)[4..] == CounterNonce(b)[4..] == BigEndian(b, 8);
      BigEndianInjective(a, b, 8);
    }
  }

  /** The number these bytes spell, the most significant first. */
  function Spelled(s: seq<byte>): nat {
    if s == [] then 0 else 256 * Spelled(s[..|s| - 1]) + s[|s| - 1] as int
  }

  lemma {:induction false} BigEndianSpells(n: nat, width: nat)
    requires n < Power256(width)
    ensures Spelled(BigEndian(n, width)) == n
  {
    if width > 0 {
      BigEndianSpells(n / 256, width - 1);
      assert BigEndian(n, width)[..width - 1] == BigEndian(n / 256, width - 1);
    }
  }

  /** Four zero bytes, and then the counter, the most significant byte first. */
  lemma NonceSpellsCounter(counter: nat)
    requires counter <= MaxUint64
    ensures CounterNonce(counter)[..4] == [0, 0, 0, 0] && Spelled(CounterNonce(counter)[4..]) == counter
  {
    assert Power256(4) == 0x1_0000_0000;
    assert Power256(8) == 0x1_0000_0000_0000_0000;
    BigEndianSpells(counter, 8);
    assert CounterNonce(counter)[4..] == BigEndian(counter, 8);
  }

  // ----- the two ends -----

  datatype CipherError = Poisoned | CounterExhausted | TooLong | NotAuthentic | NoTag
  datatype End = End(counter: nat, poisoned: bool)
  datatype SealResult = SealedFrame(ciphertext: Ciphertext) | SealFailed(error: CipherError)
  datatype OpenResult = OpenedFrame(frame: Frame) | OpenFailed(error: CipherError)

  function Seal(e: End, key: Key, tag: byte, payload: seq<byte>): (End, SealResult) {
    if e.poisoned then (e, SealFailed(Poisoned))
    else if e.counter >= MaxUint64 then (e.(poisoned := true), SealFailed(CounterExhausted))
    else if |payload| + 1 + Overhead > MaxWireMessage then (e.(poisoned := true), SealFailed(TooLong))
    else (e.(counter := e.counter + 1), SealedFrame(Sealed(key, CounterNonce(e.counter), [tag] + payload)))
  }

  function Open(e: End, key: Key, c: Ciphertext): (End, OpenResult) {
    if e.poisoned then (e, OpenFailed(Poisoned))
    else if e.counter >= MaxUint64 then (e.(poisoned := true), OpenFailed(CounterExhausted))
    else if WireLength(c) > MaxWireMessage then (e.(poisoned := true), OpenFailed(TooLong))
    else
      var plain := IdealOpen(key, CounterNonce(e.counter), c);
      if plain.None? then (e.(poisoned := true), OpenFailed(NotAuthentic))
      else if plain.value == [] then (e.(poisoned := true), OpenFailed(NoTag))
      else (e.(counter := e.counter + 1), OpenedFrame((plain.value[0], plain.value[1..])))
  }

  /** Sealing succeeds exactly on a healthy end below the counter limit, for a frame in size; any failure poisons. */
  lemma SealsExactly(e: End, key: Key, tag: byte, payload: seq<byte>)
    ensures var (t, r) := Seal(e, key, tag, payload);
            && (r.SealedFrame? <==> !e.poisoned && e.counter < MaxUint64 && |payload| + 17 <= MaxWireMessage)
            && (r.SealedFrame? ==>
                  && t.counter == e.counter + 1 && !t.poisoned && r.ciphertext.Sealed? && r.ciphertext.key == key
                  && r.ciphertext.nonce == CounterNonce(e.counter) && |r.ciphertext.plain| == |payload| + 1
                  && r.ciphertext.plain[0] == tag && r.ciphertext.plain[1..] == payload)
            && (r.SealFailed? ==> t.poisoned && t.counter == e.counter)
            && (r.SealFailed? ==> (r.error == Poisoned <==> e.poisoned)
                                  && (r.error == CounterExhausted <==> !e.poisoned && e.counter >= MaxUint64)
                                  && (r.error == TooLong <==> !e.poisoned && e.counter < MaxUint64))
  {
  }

  /** A value this end may accept: in size, sealed under its key and the nonce of its counter, with a tag. */
  predicate Acceptable(key: Key, counter: nat, c: Ciphertext) {
    WireLength(c) <= MaxWireMessage && c.Sealed? && c.key == key && c.nonce == CounterNonce(counter) && c.plain != []
  }

  /** Opening succeeds exactly on a healthy end below the counter limit, given an acceptable value; any failure poisons. */
  lemma OpensExactly(e: End, key: Key, c: Ciphertext)
    ensures var (t, r) := Open(e, key, c);
            && (r.OpenedFrame? <==> !e.poisoned && e.counter < MaxUint64 && Acceptable(key, e.counter, c))
            && (r.OpenedFrame? ==> t.counter == e.counter + 1 && !t.poisoned && [r.frame.0] + r.frame.1 == c.plain)
            && (r.OpenFailed? ==> t.poisoned && t.counter == e.counter)
            && (r.OpenFailed? ==> (r.error == Poisoned <==> e.poisoned)
                                  && (r.error == CounterExhausted <==> !e.poisoned && e.counter >= MaxUint64)
                                  && (r.error == TooLong <==> !e.poisoned && e.counter < MaxUint64 && WireLength(c) > MaxWireMessage))
  {
  }

  class Sealer {
    const key: Key
    var counter: nat
    var poisoned: bool

    constructor (key: Key)
      ensures this.key == key && counter == 0 && !poisoned
    {
      this.key := key;
      counter, poisoned := 0, false;
    }

    method SealFrame(tag: byte, payload: seq<byte>) returns (r: SealResult)
      requires counter <= MaxUint64
      modifies this
      ensures counter <= MaxUint64
      ensures (End(counter, poisoned), r) == Seal(old(End(counter, poisoned)), key, tag, payload)
      ensures r.SealedFrame? <==> !old(poisoned) && old(counter) < MaxUint64 && |payload| + 17 <= MaxWireMessage
      ensures r.SealedFrame? ==> counter == old(counter) + 1 && !poisoned && Acceptable(key, old(counter), r.ciphertext)
      ensures r.SealFailed? ==> counter == old(counter) && poisoned
    {
      if poisoned {
        return SealFailed(Poisoned);
      }
      if counter == MaxUint64 {
        poisoned := true;
        return SealFailed(CounterExhausted);
      }
      if |payload| + 1 + Overhead > MaxWireMessage {
        poisoned := true;
        return SealFailed(TooLong);
      }
      var plain := [tag] + payload;
      r := SealedFrame(Sealed(key, CounterNonce(counter), plain));
      counter := counter + 1;
    }
  }

  class Opener {
    const key: Key
    var counter: nat
    var poisoned: bool

    constructor (key: Key)
      ensures this.key == key && counter == 0 && !poisoned
    {
      this.key := key;
      counter, poisoned := 0, false;
    }

    method OpenFrame(c: Ciphertext) returns (r: OpenResult)
      requires counter <= MaxUint64
      modifies this
      ensures counter <= MaxUint64
      ensures (End(counter, poisoned), r) == Open(old(End(counter, poisoned)), key, c)
      ensures r.OpenedFrame? <==> !old(poisoned) && old(counter) < MaxUint64 && Acceptable(key, old(counter), c)
      ensures r.OpenedFrame? ==> counter == old(counter) + 1 && !poisoned && [r.frame.0] + r.frame.1 == c.plain
      ensures r.OpenFailed? ==> counter == old(counter) && poisoned
    {
      if poisoned {
        return OpenFailed(Poisoned);
      }
      if counter == MaxUint64 {
        poisoned := true;
        return OpenFailed(CounterExhausted);
      }
      if WireLength(c) > MaxWireMessage {
        poisoned := true;
        return OpenFailed(TooLong);
      }
      var plain := IdealOpen(key, CounterNonce(counter), c);
      if plain.None? {
        poisoned := true;
        return OpenFailed(NotAuthentic);
      }
      if |plain.value| == 0 {
        poisoned := true;
        return OpenFailed(NoTag);
      }
      counter := counter + 1;
      r := OpenedFrame((plain.value[0], plain.value[1..]));
    }
  }

  // ----- every key at once, with the adversary on the wire -----

  /** A value put on the wire, and its position among the frames sealed under its key. */
  datatype Entry = Entry(c: Ciphertext, index: nat)

  /** `sent` and `got` are the frames each key's sealer sealed and its opener accepted, in order. */
  datatype Wire = Wire(
    sealers: map<Key, End>,
    openers: map<Key, End>,
    log: seq<Entry>,
    sent: map<Key, seq<Frame>>,
    got: map<Key, seq<Frame>>)

  /** One sealer and one opener per key, as key derivation hands them out. */
  function FreshWire(keys: set<Key>): Wire {
    Wire(map k | k in keys :: End(0, false), map k | k in keys :: End(0, false), [],
         map k | k in keys :: [], map k | k in keys :: [])
  }

  function SealOn(w: Wire, k: Key, tag: byte, payload: seq<byte>): (Wire, bool)
    requires k in w.sealers && k in w.sent
  {
    var (e, r) := Seal(w.sealers[k], k, tag, payload);
    if r.SealFailed? then (w.(sealers := w.sealers[k := e]), false)
    else (w.(sealers := w.sealers[k := e], log := w.log + [Entry(r.ciphertext, |w.sent[k]|)],
             sent := w.sent[k := w.sent[k] + [(tag, payload)]]), true)
  }

  /** The adversary may replay anything ever sealed under any key, in any order, or invent a value. */
  predicate Feasible(w: Wire, c: Ciphertext) {
    c.Forged? || exists j :: 0 <= j < |w.log| && w.log[j].c == c
  }

  function Feed(w: Wire, k: Key, c: Ciphertext): Wire
    requires k in w.openers && k in w.got
  {
    var (e, r) := Open(w.openers[k], k, c);
    if r.OpenFailed? then w.(openers := w.openers[k := e])
    else w.(openers := w.openers[k := e], got := w.got[k := w.got[k] + [r.frame]])
  }

  datatype WireStep = SealStep(key: Key, tag: byte, payload: seq<byte>) | FeedStep(key: Key, c: Ciphertext)

  function Advance(w: Wire, a: WireStep): Option<Wire> {
    match a
    case SealStep(k, tag, payload) =>
      if k !in w.sealers || k !in w.sent then None else Some(SealOn(w, k, tag, payload).0)
    case FeedStep(k, c) =>
      if k !in w.openers || k !in w.got || !Feasible(w, c) then None else Some(Feed(w, k, c))
  }

  ghost predicate EndsInv(w: Wire) {
    && w.sealers.Keys == w.sent.Keys && w.openers.Keys == w.sent.Keys && w.got.Keys == w.sent.Keys
    && (forall k :: k in w.sealers ==> w.sealers[k].counter == |w.sent[k]| <= MaxUint64)
    && (forall k :: k in w.openers ==> w.openers[k].counter == |w.got[k]|)
    && (forall k :: k in w.got ==> w.got[k] <= w.sent[k])
  }

  /** `e` is the `e.index`th frame sealed under its key, under the nonce of that counter. */
  predicate Logged(sent: map<Key, seq<Frame>>, e: Entry) {
    && e.c.Sealed? && e.c.key in sent && e.index < |sent[e.c.key]|
    && e.c.nonce == CounterNonce(e.index) && e.c.plain == [sent[e.c.key][e.index].0] + sent[e.c.key][e.index].1
  }

  ghost predicate LogInv(log: seq<Entry>, sent: map<Key, seq<Frame>>) {
    && (forall j :: 0 <= j < |log| ==> Logged(sent, log[j]))
    && (forall i, j :: 0 <= i < j < |log| && log[i].c.key == log[j].c.key ==> log[i].index != log[j].index)
  }

  ghost predicate WireInv(w: Wire) {
    EndsInv(w) && LogInv(w.log, w.sent)
  }

  lemma SealKeepsLog(w: Wire, k: Key, tag: byte, payload: seq<byte>)
    requires EndsInv(w) && LogInv(w.log, w.sent) && k in w.sealers
    ensures var t := SealOn(w, k, tag, payload).0; LogInv(t.log, t.sent)
  {
    var t := SealOn(w, k, tag, payload).0;
    forall j | 0 <= j < |w.log| ensures Logged(t.sent, w.log[j]) {
      assert Logged(w.sent, w.log[j]);
    }
  }

  lemma SealKeepsEnds(w: Wire, k: Key, tag: byte, payload: seq<byte>)
    requires EndsInv(w) && k in w.sealers
    ensures EndsInv(SealOn(w, k, tag, payload).0)
  {
  }

  /** An opener that accepts anything accepts exactly the next frame its own sealer sealed. */
  lemma AcceptedIsNext(w: Wire, k: Key, c: Ciphertext)
    requires WireInv(w) && k in w.openers && Feasible(w, c)
    ensures var r := Open(w.openers[k], k, c).1;
            r.OpenedFrame? ==> |w.got[k]| < |w.sent[k]| && r.frame == w.sent[k][|w.got[k]|]
  {
    if Open(w.openers[k], k, c).1.OpenedFrame? {
      var j :| 0 <= j < |w.log| && w.log[j].c == c;
      assert Logged(w.sent, w.log[j]);
      CounterNonceInjective(w.log[j].index, |w.got[k]|);
    }
  }

  lemma FeedKeepsEnds(w: Wire, k: Key, c: Ciphertext)
    requires WireInv(w) && k in w.openers && Feasible(w, c)
    ensures EndsInv(Feed(w, k, c))
  {
    AcceptedIsNext(w, k, c);
  }

  ghost predicate WireRun(ws: seq<Wire>, acts: seq<WireStep>, keys: set<Key>) {
    && |ws| == |acts| + 1 && ws[0] == FreshWire(keys)
    && forall i {:trigger acts[i]} :: 0 <= i < |acts| ==> Advance(ws[i], acts[i]) == Some(ws[i + 1])
  }

  lemma {:induction false} WireRunKeepsInv(ws: seq<Wire>, acts: seq<WireStep>, keys: set<Key>, i: nat)
    requires WireRun(ws, acts, keys) && i < |ws|
    ensures WireInv(ws[i])
  {
    if i > 0 {
      WireRunKeepsInv(ws, acts, keys, i - 1);
      assert Advance(ws[i - 1], acts[i - 1]) == Some(ws[i]);
      match acts[i - 1]
      case SealStep(k, tag, payload) =>
        SealKeepsEnds(ws[i - 1], k, tag, payload);
        SealKeepsLog(ws[i - 1], k, tag, payload);
      case FeedStep(k, c) => FeedKeepsEnds(ws[i - 1], k, c);
    }
  }

  /** Whatever the adversary feeds, each opener has accepted a prefix of what its own sealer sealed. */
  lemma ChannelIntegrity(ws: seq<Wire>, acts: seq<WireStep>, keys: set<Key>, i: nat, k: Key)
    requires WireRun(ws, acts, keys) && i < |ws| && k in ws[i].got
    ensures k in ws[i].sent && ws[i].got[k] <= ws[i].sent[k]
  {
    WireRunKeepsInv(ws, acts, keys, i);
  }

  /** No two values put on the wire share both key and nonce. */
  lemma NoncesNeverRepeat(ws: seq<Wire>, acts: seq<WireStep>, keys: set<Key>, i: nat, a: nat, b: nat)
    requires WireRun(ws, acts, keys) && i < |ws| && a < b < |ws[i].log|
    ensures ws[i].log[a].c.Sealed? && ws[i].log[b].c.Sealed?
    ensures (ws[i].log[a].c.key, ws[i].log[a].c.nonce) != (ws[i].log[b].c.key, ws[i].log[b].c.nonce)
  {
    WireRunKeepsInv(ws, acts, keys, i);
    var (x, y) := (ws[i].log[a], ws[i].log[b]);
    assert Logged(ws[i].sent, x) && Logged(ws[i].sent, y);
    CounterNonceInjective(x.index, y.index);
  }

  /** The next frame of the opener's own sealer, as it went over the wire. */
  predicate IsNext(w: Wire, k: Key, c: Ciphertext) {
    k in w.got && k in w.sent && |w.got[k]| < |w.sent[k]|
    && var (tag, payload) := w.sent[k][|w.got[k]|]; c == Sealed(k, CounterNonce(|w.got[k]|), [tag] + payload)
  }

  /** Feeding a healthy opener its next frame delivers it; feeding it anything else poisons it. */
  lemma FeedsExactly(w: Wire, k: Key, c: Ciphertext)
    requires WireInv(w) && k in w.openers && Feasible(w, c) && !w.openers[k].poisoned
    ensures var t := Feed(w, k, c);
            if IsNext(w, k, c) && |w.got[k]| < MaxUint64 && WireLength(c) <= MaxWireMessage
            then !t.openers[k].poisoned && t.got[k] == w.got[k] + [w.sent[k][|w.got[k]|]]
            else t.openers[k].poisoned && t.got[k] == w.got[k]
  {
    OpensExactly(w.openers[k], k, c);
    AcceptedIsNext(w, k, c);
    if Open(w.openers[k], k, c).1.OpenedFrame? {
      var j :| 0 <= j < |w.log| && w.log[j].c == c;
      assert Logged(w.sent, w.log[j]);
      CounterNonceInjective(w.log[j].index, |w.got[k]|);
    }
  }

  /** Sealing on a healthy sealer below its limits logs exactly that frame; beyond them it poisons. */
  lemma SealLogsExactly(w: Wire, k: Key, tag: byte, payload: seq<byte>)
    requires EndsInv(w) && k in w.sealers && !w.sealers[k].poisoned
    ensures var (t, ok) := SealOn(w, k, tag, payload);
            if |w.sent[k]| < MaxUint64 && |payload| + 17 <= MaxWireMessage
            then ok && !t.sealers[k].poisoned && t.sent[k] == w.sent[k] + [(tag, payload)]
            else !ok && t.sealers[k].poisoned && t.sent[k] == w.sent[k]
  {
    SealsExactly(w.sealers[k], k, tag, payload);
  }

  /** What was just sealed can be delivered. */
  lemma SealedIsFeasible(w: Wire, k: Key, tag: byte, payload: seq<byte>)
    requires EndsInv(w) && k in w.sealers && !w.sealers[k].poisoned && |w.sent[k]| < MaxUint64
    requires |payload| + 17 <= MaxWireMessage
    ensures Feasible(SealOn(w, k, tag, payload).0, Sealed(k, CounterNonce(|w.sent[k]|), [tag] + payload))
  {
    var t := SealOn(w, k, tag, payload).0;
    assert t.log[|w.log|].c == Sealed(k, CounterNonce(|w.sent[k]|), [tag] + payload);
  }

  /** A poisoned end never works again: a sealer puts nothing more on the wire, an opener accepts nothing more. */
  lemma PoisonStays(w: Wire, a: WireStep, t: Wire, k: Key)
    requires Advance(w, a) == Some(t)
    ensures k in w.sealers && k in w.sent && w.sealers[k].poisoned ==>
              k in t.sealers && k in t.sent && t.sealers[k].poisoned && t.sent[k] == w.sent[k]
    ensures k in w.openers && k in w.got && w.openers[k].poisoned ==>
              k in t.openers && k in t.got && t.openers[k].poisoned && t.got[k] == w.got[k]
  {
  }

  lemma {:induction false} PoisonIsPermanent(ws: seq<Wire>, acts: seq<WireStep>, keys: set<Key>, i: nat, j: nat, k: Key)
    requires WireRun(ws, acts, keys) && i <= j < |ws| && k in keys
    ensures k in ws[i].sealers && k in ws[i].sent && k in ws[i].openers && k in ws[i].got
    ensures k in ws[j].sealers && k in ws[j].sent && k in ws[j].openers && k in ws[j].got
    ensures ws[i].sealers[k].poisoned ==> ws[j].sealers[k].poisoned && ws[j].sent[k] == ws[i].sent[k]
    ensures ws[i].openers[k].poisoned ==> ws[j].openers[k].poisoned && ws[j].got[k] == ws[i].got[k]
  {
    if i < j {
      PoisonIsPermanent(ws, acts, keys, i, j - 1, k);
      WireRunStep(ws, acts, keys, j - 1);
      PoisonStays(ws[j - 1], acts[j - 1], ws[j], k);
      AdvanceKeepsKeys(ws[j - 1], acts[j - 1], ws[j]);
    } else {
      KeysStay(ws, acts, keys, i);
    }
  }

  /** Once an opener has been fed anything but its sealer's next frame, it accepts nothing ever again. */
  lemma WrongFeedSilences(ws: seq<Wire>, acts: seq<WireStep>, keys: set<Key>, i: nat, j: nat, k: Key, c: Ciphertext)
    requires WireRun(ws, acts, keys) && i < j < |ws| && k in keys && acts[i] == FeedStep(k, c)
    requires !IsNext(ws[i], k, c) || WireLength(c) > MaxWireMessage
    ensures k in ws[i].got && k in ws[j].got && ws[j].got[k] == ws[i].got[k]
  {
    WireRunKeepsInv(ws, acts, keys, i);
    WireRunStep(ws, acts, keys, i);
    KeysStay(ws, acts, keys, i);
    if ws[i].openers[k].poisoned {
      PoisonIsPermanent(ws, acts, keys, i, j, k);
    } else {
      FeedsExactly(ws[i], k, c);
      PoisonIsPermanent(ws, acts, keys, i + 1, j, k);
    }
  }

  /** Once a sealer has been asked for a frame too long for the wire, or past its last counter, it seals nothing ever again. */
  lemma FailedSealSilences(ws: seq<Wire>, acts: seq<WireStep>, keys: set<Key>, i: nat, j: nat, k: Key, tag: byte, payload: seq<byte>)
    requires WireRun(ws, acts, keys) && i < j < |ws| && k in keys && acts[i] == SealStep(k, tag, payload)
    requires |payload| + 17 > MaxWireMessage || (k in ws[i].sent && |ws[i].sent[k]| >= MaxUint64)
    ensures k in ws[i].sent && k in ws[j].sent && ws[j].sent[k] == ws[i].sent[k]
  {
    WireRunKeepsInv(ws, acts, keys, i);
    WireRunStep(ws, acts, keys, i);
    KeysStay(ws, acts, keys, i);
    if ws[i].sealers[k].poisoned {
      PoisonIsPermanent(ws, acts, keys, i, j, k);
    } else {
      SealLogsExactly(ws[i], k, tag, payload);
      PoisonIsPermanent(ws, acts, keys, i + 1, j, k);
    }
  }

  lemma AdvanceKeepsKeys(w: Wire, a: WireStep, t: Wire)
    requires Advance(w, a) == Some(t)
    ensures t.sealers.Keys == w.sealers.Keys && t.sent.Keys == w.sent.Keys
    ensures t.openers.Keys == w.openers.Keys && t.got.Keys == w.got.Keys
  {
  }

  lemma {:induction false} KeysStay(ws: seq<Wire>, acts: seq<WireStep>, keys: set<Key>, i: nat)
    requires WireRun(ws, acts, keys) && i < |ws|
    ensures ws[i].sealers.Keys == keys && ws[i].sent.Keys == keys && ws[i].openers.Keys == keys && ws[i].got.Keys == keys
  {
    if i > 0 {
      KeysStay(ws, acts, keys, i - 1);
      WireRunStep(ws, acts, keys, i - 1);
      AdvanceKeepsKeys(ws[i - 1], acts[i - 1], ws[i]);
    }
  }

  lemma WireRunStep(ws: seq<Wire>, acts: seq<WireStep>, keys: set<Key>, i: nat)
    requires WireRun(ws, acts, keys) && i < |acts|
    ensures Advance(ws[i], acts[i]) == Some(ws[i + 1])
  {
  }

  /** The channel works: an opener fed, in order, what a fresh sealer produced accepts exactly that. */
  lemma InOrderDelivery(e: End, o: End, k: Key, tag: byte, payload: seq<byte>)
    requires e.counter == o.counter < MaxUint64 && !e.poisoned && !o.poisoned
    requires |payload| + 1 + Overhead <= MaxWireMessage
    ensures var (e', r) := Seal(e, k, tag, payload);
            && r.SealedFrame?
            && var (o', got) := Open(o, k, r.ciphertext);
               got == OpenedFrame((tag, payload)) && o'.counter == e'.counter && !o'.poisoned && !e'.poisoned
  {
    assert ([tag] + payload)[1..] == payload;
  }
}
