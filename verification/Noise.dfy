/**
 The Noise_XX handshake and the cipher states it ends in, over symbolic cryptography: the primitives
 are parameters, constrained only by the laws below (sections 5.2 and 7.5 of the Noise Protocol
 Framework name the operations).
 */
module Noise {
  import opened Basics
  import Frames
  import Runs

  type Priv = nat

  datatype Suite = Suite(
    publicKey: Priv -> Bytes,
    valid: Bytes -> bool,                          // parses as a public key
    dh: (Priv, Bytes) -> Option<Bytes>,
    hash: Bytes -> Bytes,
    hkdf: (Bytes, Bytes) -> (Bytes, Bytes),
    seal: (Bytes, Bytes, Bytes, Bytes) -> Bytes,   // key, nonce, associated data, plaintext
    open: (Bytes, Bytes, Bytes, Bytes) -> Option<Bytes>)

  const PUBLIC_KEY_BYTES := 65
  const TAG_BYTES := 16
  const LAST_NONCE := 0xffff_ffff_ffff_ffff
  const ZERO_KEY: Bytes := seq(32, i => 0)

  ghost predicate Laws(c: Suite) {
    && (forall a: Priv :: |c.publicKey(a)| == PUBLIC_KEY_BYTES && c.valid(c.publicKey(a)))
    && (forall a: Priv, b: Priv :: c.dh(a, c.publicKey(b)).Some?)
    && (forall a: Priv, b: Priv :: c.dh(a, c.publicKey(b)) == c.dh(b, c.publicKey(a)))
    && (forall k, n, ad, pt :: c.open(k, n, ad, c.seal(k, n, ad, pt)) == Some(pt))
    && (forall k, n, ad, pt :: |c.seal(k, n, ad, pt)| == |pt| + TAG_BYTES)
  }

  datatype NoiseError = WrongRole | WrongPhase | WrongLength | ImportFailed | DhFailed
                      | KeyNotInitialized | NonceExhausted | AuthenticationFailed

  // ----- cipher states

  datatype Cipher = Cipher(key: Bytes, n: nat)

  /** Four zero bytes and the counter in eight. */
  function NonceBytes(n: nat): Bytes {
    [0, 0, 0, 0] + Frames.BigEndian(n, 8)
  }

  /** No two counters below 2^64 share a nonce. */
  lemma NoncesDiffer(a: nat, b: nat)
    requires a <= LAST_NONCE && b <= LAST_NONCE && NonceBytes(a) == NonceBytes(b)
    ensures a == b
  {
    Frames.Pow256Values();
    Frames.FromTo(a, 8);
    Frames.FromTo(b, 8);
    assert NonceBytes(a)[4..] == Frames.BigEndian(a, 8) && NonceBytes(b)[4..] == Frames.BigEndian(b, 8);
  }

  function Encrypt(c: Suite, s: Cipher, ad: Bytes, plaintext: Bytes): (Result<Bytes, NoiseError>, Cipher) {
    if s.key == ZERO_KEY then (Err(KeyNotInitialized), s)
    else if s.n == LAST_NONCE then (Err(NonceExhausted), s)
    else (Ok(c.seal(s.key, NonceBytes(s.n), ad, plaintext)), s.(n := s.n + 1))
  }

  /** The counter moves only when authentication succeeds. */
  function Decrypt(c: Suite, s: Cipher, ad: Bytes, ciphertext: Bytes): (Result<Bytes, NoiseError>, Cipher) {
    if s.key == ZERO_KEY then (Err(KeyNotInitialized), s)
    else if s.n == LAST_NONCE then (Err(NonceExhausted), s)
    else match c.open(s.key, NonceBytes(s.n), ad, ciphertext)
      case None => (Err(AuthenticationFailed), s)
      case Some(pt) => (Ok(pt), s.(n := s.n + 1))
  }

  class CipherState {
    const suite: Suite
    const key: Bytes
    var n: nat

    constructor (suite: Suite, key: Bytes)
      ensures this.suite == suite && this.key == key && n == 0
    {
      this.suite, this.key, n := suite, key, 0;
    }

    ghost function Snapshot(): Cipher
      reads this
    {
      Cipher(key, n)
    }

    method EncryptWithAd(ad: Bytes, plaintext: Bytes) returns (res: Result<Bytes, NoiseError>)
      modifies this
      ensures (res, Snapshot()) == Encrypt(suite, old(Snapshot()), ad, plaintext)
    {
      if key == ZERO_KEY { return Err(KeyNotInitialized); }
      if n == LAST_NONCE { return Err(NonceExhausted); }
      var ct := suite.seal(key, NonceBytes(n), ad, plaintext);
      n := n + 1;
      return Ok(ct);
    }

    method DecryptWithAd(ad: Bytes, ciphertext: Bytes) returns (res: Result<Bytes, NoiseError>)
      modifies this
      ensures (res, Snapshot()) == Decrypt(suite, old(Snapshot()), ad, ciphertext)
    {
      if key == ZERO_KEY { return Err(KeyNotInitialized); }
      if n == LAST_NONCE { return Err(NonceExhausted); }
      var pt := suite.open(key, NonceBytes(n), ad, ciphertext);
      if pt.None? { return Err(AuthenticationFailed); }
      n := n + 1;
      return Ok(pt.value);
    }
  }

  /** The ciphertexts of a sequence of messages, and the cipher state after them; the first error
      ends it. */
  function EncryptAll(c: Suite, s: Cipher, ms: seq<Bytes>): (Result<seq<Bytes>, NoiseError>, Cipher)
    decreases |ms|
  {
    if ms == [] then (Ok([]), s)
    else
      var (first, s1) := Encrypt(c, s, [], ms[0]);
      if first.Err? then (Err(first.error), s1)
      else
        var (rest, s2) := EncryptAll(c, s1, ms[1..]);
        (if rest.Err? then rest else Ok([first.value] + rest.value), s2)
  }

  function DecryptAll(c: Suite, s: Cipher, cs: seq<Bytes>): (Result<seq<Bytes>, NoiseError>, Cipher)
    decreases |cs|
  {
    if cs == [] then (Ok([]), s)
    else
      var (first, s1) := Decrypt(c, s, [], cs[0]);
      if first.Err? then (Err(first.error), s1)
      else
        var (rest, s2) := DecryptAll(c, s1, cs[1..]);
        (if rest.Err? then rest else Ok([first.value] + rest.value), s2)
  }

  /** Any sequence of messages sent on one cipher state and received in order on an equal one
      decrypts to itself, and the two counters stay in step. */
  lemma {:induction false} InOrderDecrypts(c: Suite, s: Cipher, ms: seq<Bytes>)
    requires Laws(c) && EncryptAll(c, s, ms).0.Ok?
    ensures DecryptAll(c, s, EncryptAll(c, s, ms).0.value) == (Ok(ms), EncryptAll(c, s, ms).1)
    ensures EncryptAll(c, s, ms).1 == s.(n := s.n + |ms|)
    decreases |ms|
  {
    if ms != [] {
      var (first, s1) := Encrypt(c, s, [], ms[0]);
      InOrderDecrypts(c, s1, ms[1..]);
      var cs := EncryptAll(c, s, ms).0.value;
      assert cs[0] == first.value && cs[1..] == EncryptAll(c, s1, ms[1..]).0.value;
      assert [ms[0]] + ms[1..] == ms;
    }
  }

  /** A cipher state after it was offered ciphertexts, whether it took them or not. */
  function Offered(c: Suite, s: Cipher, ad: Bytes, cs: seq<Bytes>): Cipher
    decreases |cs|
  {
    if cs == [] then s else Offered(c, Decrypt(c, s, ad, cs[0]).1, ad, cs[1..])
  }

  /** However many forgeries come, the genuine messages after them still decrypt in order. */
  lemma {:induction false} ForgeriesAreForgotten(c: Suite, s: Cipher, forged: seq<Bytes>, ms: seq<Bytes>)
    requires Laws(c) && forall x :: x in forged ==> c.open(s.key, NonceBytes(s.n), [], x).None?
    requires EncryptAll(c, s, ms).0.Ok?
    ensures DecryptAll(c, Offered(c, s, [], forged), EncryptAll(c, s, ms).0.value).0 == Ok(ms)
    decreases |forged|
  {
    if forged == [] {
      InOrderDecrypts(c, s, ms);
    } else {
      assert forged[0] in forged && forall x :: x in forged[1..] ==> x in forged;
      ForgeriesAreForgotten(c, s, forged[1..], ms);
    }
  }

  // ----- the handshake

  datatype Role = Initiator | Responder

  datatype Phase = Ready | Msg1Sent | Msg1Received | Msg2Sent | Msg2Received | Done

  datatype Party = Party(
    role: Role, phase: Phase,
    h: Bytes, ck: Bytes, k: Bytes, hasK: bool,
    ePriv: Priv, ePub: Bytes, sPriv: Priv, sPub: Bytes,
    rEPub: Bytes, rSPub: Bytes)

  /** The protocol name in ASCII, padded with zeros to 32 bytes. */
  const PROTOCOL: Bytes := [78, 111, 105, 115, 101, 95, 88, 88, 95, 80, 50, 53, 54, 95, 65, 69, 83, 71, 67, 77, 95,
                            83, 72, 65, 50, 53, 54, 0, 0, 0, 0, 0]

  function New(c: Suite, role: Role, staticKey: Priv): Party {
    Party(role, Ready, c.hash(PROTOCOL + []), PROTOCOL, ZERO_KEY, false,
          0, [], staticKey, c.publicKey(staticKey), [], [])
  }

  function MixHash(c: Suite, p: Party, data: Bytes): Party {
    p.(h := c.hash(p.h + data))
  }

  function MixKey(c: Suite, p: Party, ikm: Bytes): Party {
    var (ck, k) := c.hkdf(p.ck, ikm);
    p.(ck := ck, k := k, hasK := true)
  }

  /** Every call makes a cipher state of its own, so the counter is always 0. */
  function EncryptAndHash(c: Suite, p: Party, plaintext: Bytes): (Result<Bytes, NoiseError>, Party) {
    if !p.hasK then (Err(KeyNotInitialized), p)
    else match Encrypt(c, Cipher(p.k, 0), p.h, plaintext).0
      case Err(e) => (Err(e), p)
      case Ok(ct) => (Ok(ct), MixHash(c, p, ct))
  }

  function DecryptAndHash(c: Suite, p: Party, ciphertext: Bytes): (Result<Bytes, NoiseError>, Party) {
    if !p.hasK then (Err(KeyNotInitialized), p)
    else match Decrypt(c, Cipher(p.k, 0), p.h, ciphertext).0
      case Err(e) => (Err(e), p)
      case Ok(pt) => (Ok(pt), MixHash(c, p, ciphertext))
  }

  /** A Diffie-Hellman token: parse the remote key, compute, mix. */
  function MixDh(c: Suite, p: Party, mine: Priv, theirs: Bytes): (Result<(), NoiseError>, Party) {
    if !c.valid(theirs) then (Err(ImportFailed), p)
    else match c.dh(mine, theirs)
      case None => (Err(DhFailed), p)
      case Some(secret) => (Ok(()), MixKey(c, p, secret))
  }

  function WriteMessage1(c: Suite, p: Party, e: Priv): (Result<Bytes, NoiseError>, Party) {
    if p.role != Initiator then (Err(WrongRole), p)
    else if p.phase != Ready then (Err(WrongPhase), p)
    else
      var p1 := MixHash(c, p.(ePriv := e, ePub := c.publicKey(e)), c.publicKey(e));
      (Ok(p1.ePub), p1.(phase := Msg1Sent))
  }

  function ReadMessage1(c: Suite, p: Party, msg: Bytes): (Result<(), NoiseError>, Party) {
    if p.role != Responder then (Err(WrongRole), p)
    else if p.phase != Ready then (Err(WrongPhase), p)
    else if |msg| != 65 then (Err(WrongLength), p)
    else (Ok(()), MixHash(c, p.(rEPub := msg), msg).(phase := Msg1Received))
  }

  /** A failing call keeps whatever it has already mixed in, but not the phase. */
  function WriteMessage2(c: Suite, p: Party, e: Priv): (Result<Bytes, NoiseError>, Party) {
    if p.role != Responder then (Err(WrongRole), p)
    else if p.phase != Msg1Received then (Err(WrongPhase), p)
    else
      var p1 := MixHash(c, p.(ePriv := e, ePub := c.publicKey(e)), c.publicKey(e));
      var (ee, p2) := MixDh(c, p1, p1.ePriv, p1.rEPub);
      if ee.Err? then (Err(ee.error), p2) else
      var (encS, p3) := EncryptAndHash(c, p2, p2.sPub);
      if encS.Err? then (encS, p3) else
      var (es, p4) := MixDh(c, p3, p3.sPriv, p3.rEPub);
      if es.Err? then (Err(es.error), p4) else
      var (tag, p5) := EncryptAndHash(c, p4, []);
      if tag.Err? then (tag, p5) else
      (Ok(p5.ePub + encS.value + tag.value), p5.(phase := Msg2Sent))
  }

  function ReadMessage2(c: Suite, p: Party, msg: Bytes): (Result<(), NoiseError>, Party) {
    if p.role != Initiator then (Err(WrongRole), p)
    else if p.phase != Msg1Sent then (Err(WrongPhase), p)
    else if |msg| != 162 then (Err(WrongLength), p)
    else
      var p1 := MixHash(c, p.(rEPub := msg[..65]), msg[..65]);
      var (ee, p2) := MixDh(c, p1, p1.ePriv, p1.rEPub);
      if ee.Err? then (ee, p2) else
      var (rs, p3) := DecryptAndHash(c, p2, msg[65..146]);
      if rs.Err? then (Err(rs.error), p3) else
      var (es, p4) := MixDh(c, p3.(rSPub := rs.value), p3.ePriv, rs.value);
      if es.Err? then (es, p4) else
      var (end, p5) := DecryptAndHash(c, p4, msg[146..162]);
      if end.Err? then (Err(end.error), p5) else
      (Ok(()), p5.(phase := Msg2Received))
  }

  function WriteMessage3(c: Suite, p: Party): (Result<Bytes, NoiseError>, Party) {
    if p.role != Initiator then (Err(WrongRole), p)
    else if p.phase != Msg2Received then (Err(WrongPhase), p)
    else
      var (encS, p1) := EncryptAndHash(c, p, p.sPub);
      if encS.Err? then (encS, p1) else
      var (se, p2) := MixDh(c, p1, p1.sPriv, p1.rEPub);
      if se.Err? then (Err(se.error), p2) else
      var (tag, p3) := EncryptAndHash(c, p2, []);
      if tag.Err? then (tag, p3) else
      (Ok(encS.value + tag.value), p3.(phase := Done))
  }

  function ReadMessage3(c: Suite, p: Party, msg: Bytes): (Result<(), NoiseError>, Party) {
    if p.role != Responder then (Err(WrongRole), p)
    else if p.phase != Msg2Sent then (Err(WrongPhase), p)
    else if |msg| != 97 then (Err(WrongLength), p)
    else
      var (iS, p1) := DecryptAndHash(c, p, msg[..81]);
      if iS.Err? then (Err(iS.error), p1) else
      var (se, p2) := MixDh(c, p1.(rSPub := iS.value), p1.ePriv, iS.value);
      if se.Err? then (se, p2) else
      var (end, p3) := DecryptAndHash(c, p2, msg[81..97]);
      if end.Err? then (Err(end.error), p3) else
      (Ok(()), p3.(phase := Done))
  }

  /** The post-handshake cipher states, from the caller's side: sending, receiving. */
  function Split(c: Suite, p: Party): (Cipher, Cipher)
    requires p.phase == Done
  {
    var (k1, k2) := c.hkdf(p.ck, []);
    if p.role == Initiator then (Cipher(k1, 0), Cipher(k2, 0)) else (Cipher(k2, 0), Cipher(k1, 0))
  }

  // ----- agreement

  /** The two sides share transcript and keys. */
  predicate InStep(a: Party, b: Party) {
    a.h == b.h && a.ck == b.ck && a.k == b.k && a.hasK == b.hasK
  }

  lemma DhInStep(c: Suite, a: Party, b: Party, x: Priv, y: Priv)
    requires Laws(c) && InStep(a, b)
    ensures MixDh(c, a, x, c.publicKey(y)).0.Ok? && MixDh(c, b, y, c.publicKey(x)).0.Ok?
    ensures InStep(MixDh(c, a, x, c.publicKey(y)).1, MixDh(c, b, y, c.publicKey(x)).1)
  {
    assert c.valid(c.publicKey(x)) && c.valid(c.publicKey(y));
    assert c.dh(x, c.publicKey(y)) == c.dh(y, c.publicKey(x));
  }

  lemma SealInStep(c: Suite, a: Party, b: Party, plaintext: Bytes)
    requires Laws(c) && InStep(a, b) && EncryptAndHash(c, a, plaintext).0.Ok?
    ensures var (ct, a') := EncryptAndHash(c, a, plaintext); var (pt, b') := DecryptAndHash(c, b, ct.value);
      |ct.value| == |plaintext| + TAG_BYTES && pt == Ok(plaintext) && InStep(a', b')
  {}

  lemma Message1(c: Suite, i: Party, r: Party, e: Priv)
    requires Laws(c) && InStep(i, r) && i.role == Initiator && i.phase == Ready && r.role == Responder && r.phase == Ready
    ensures var (m, i') := WriteMessage1(c, i, e);
      && m.Ok? && |m.value| == 65 && ReadMessage1(c, r, m.value).0.Ok?
      && var r' := ReadMessage1(c, r, m.value).1;
         InStep(i', r') && i'.ePriv == e && r'.rEPub == c.publicKey(e)
  {
    assert |c.publicKey(e)| == 65;
  }

  lemma Message2(c: Suite, i: Party, r: Party, e: Priv)
    requires Laws(c) && InStep(i, r) && i.role == Initiator && i.phase == Msg1Sent
    requires r.role == Responder && r.phase == Msg1Received && r.rEPub == c.publicKey(i.ePriv)
    requires r.sPub == c.publicKey(r.sPriv) && WriteMessage2(c, r, e).0.Ok?
    ensures var (m, r') := WriteMessage2(c, r, e);
      && |m.value| == 162 && ReadMessage2(c, i, m.value).0.Ok?
      && var i' := ReadMessage2(c, i, m.value).1;
         InStep(i', r') && i'.rEPub == c.publicKey(e) && i'.rSPub == r.sPub && r'.ePriv == e
  {
    var pub := c.publicKey(e);
    assert |pub| == 65 && |r.sPub| == 65;
    var r1 := MixHash(c, r.(ePriv := e, ePub := pub), pub);
    var i1 := MixHash(c, i.(rEPub := pub), pub);
    DhInStep(c, i1, r1, i.ePriv, e);
    var i2, r2 := MixDh(c, i1, i.ePriv, pub).1, MixDh(c, r1, e, r.rEPub).1;
    SealInStep(c, r2, i2, r.sPub);
    var (encS, r3) := EncryptAndHash(c, r2, r.sPub);
    var i3 := DecryptAndHash(c, i2, encS.value).1.(rSPub := r.sPub);
    DhInStep(c, i3, r3, i.ePriv, r.sPriv);
    var i4, r4 := MixDh(c, i3, i.ePriv, r.sPub).1, MixDh(c, r3, r.sPriv, r.rEPub).1;
    SealInStep(c, r4, i4, []);
    var tag := EncryptAndHash(c, r4, []).0.value;
    var m := WriteMessage2(c, r, e).0.value;
    assert m == pub + encS.value + tag;
    assert m[..65] == pub && m[65..146] == encS.value && m[146..162] == tag;
  }

  lemma Message3(c: Suite, i: Party, r: Party)
    requires Laws(c) && InStep(i, r) && i.role == Initiator && i.phase == Msg2Received
    requires r.role == Responder && r.phase == Msg2Sent && i.rEPub == c.publicKey(r.ePriv)
    requires i.sPub == c.publicKey(i.sPriv) && WriteMessage3(c, i).0.Ok?
    ensures var (m, i') := WriteMessage3(c, i);
      && |m.value| == 97 && ReadMessage3(c, r, m.value).0.Ok?
      && var r' := ReadMessage3(c, r, m.value).1;
         InStep(i', r') && r'.rSPub == i.sPub && i'.phase == Done && r'.phase == Done
         && i'.role == Initiator && r'.role == Responder
  {
    assert |i.sPub| == 65;
    SealInStep(c, i, r, i.sPub);
    var (encS, i1) := EncryptAndHash(c, i, i.sPub);
    var r1 := DecryptAndHash(c, r, encS.value).1.(rSPub := i.sPub);
    DhInStep(c, i1, r1, i.sPriv, r.ePriv);
    var i2, r2 := MixDh(c, i1, i.sPriv, i.rEPub).1, MixDh(c, r1, r.ePriv, i.sPub).1;
    SealInStep(c, i2, r2, []);
    var tag := EncryptAndHash(c, i2, []).0.value;
    var m := WriteMessage3(c, i).0.value;
    assert m == encS.value + tag;
    assert m[..81] == encS.value && m[81..97] == tag;
  }

  /** The messages of an undisturbed run and the two parties after it. */
  datatype Exchange = Exchange(m1: Bytes, m2: Bytes, m3: Bytes, i: Party, r: Party)

  /** An undisturbed run; it can only stop because a derived key is the all-zero key, which the
      writer of a message notices before it is sent. */
  function Undisturbed(c: Suite, sI: Priv, sR: Priv, eI: Priv, eR: Priv): Option<Exchange> {
    var (m1, i1) := WriteMessage1(c, New(c, Initiator, sI), eI);
    if m1.Err? then None else
    var (_, r1) := ReadMessage1(c, New(c, Responder, sR), m1.value);
    var (m2, r2) := WriteMessage2(c, r1, eR);
    if m2.Err? then None else
    var (_, i2) := ReadMessage2(c, i1, m2.value);
    var (m3, i3) := WriteMessage3(c, i2);
    if m3.Err? then None else
    var (_, r3) := ReadMessage3(c, r2, m3.value);
    Some(Exchange(m1.value, m2.value, m3.value, i3, r3))
  }

  /** The last two steps of the run: what both sides have in common when they are done. */
  lemma Concluded(c: Suite, i: Party, r: Party, e: Priv)
    requires Laws(c) && InStep(i, r) && i.role == Initiator && i.phase == Msg1Sent
    requires r.role == Responder && r.phase == Msg1Received && r.rEPub == c.publicKey(i.ePriv)
    requires r.sPub == c.publicKey(r.sPriv) && i.sPub == c.publicKey(i.sPriv) && WriteMessage2(c, r, e).0.Ok?
    requires WriteMessage3(c, ReadMessage2(c, i, WriteMessage2(c, r, e).0.value).1).0.Ok?
    ensures var (m2, r2) := WriteMessage2(c, r, e);
      var i2 := ReadMessage2(c, i, m2.value).1;
      var (m3, i3) := WriteMessage3(c, i2);
      var r3 := ReadMessage3(c, r2, m3.value).1;
      && |m2.value| == 162 && |m3.value| == 97 && InStep(i3, r3) && i3.phase == Done && r3.phase == Done
      && i3.role == Initiator && r3.role == Responder && i3.rSPub == r.sPub && r3.rSPub == i.sPub
  {
    Message2(c, i, r, e);
    var (m2, r2) := WriteMessage2(c, r, e);
    Message3(c, ReadMessage2(c, i, m2.value).1, r2);
  }

  /** Handshake agreement. */
  lemma Agreement(c: Suite, sI: Priv, sR: Priv, eI: Priv, eR: Priv)
    requires Laws(c) && Undisturbed(c, sI, sR, eI, eR).Some?
    ensures var x := Undisturbed(c, sI, sR, eI, eR).value;
      && |x.m1| == 65 && |x.m2| == 162 && |x.m3| == 97
      && x.i.phase == Done && x.r.phase == Done
      && x.i.h == x.r.h && x.i.ck == x.r.ck
      && x.i.rSPub == c.publicKey(sR) && x.r.rSPub == c.publicKey(sI)
      && Split(c, x.i).0 == Split(c, x.r).1 && Split(c, x.i).1 == Split(c, x.r).0
  {
    var i0, r0 := New(c, Initiator, sI), New(c, Responder, sR);
    Message1(c, i0, r0, eI);
    var (m1, i1) := WriteMessage1(c, i0, eI);
    Concluded(c, i1, ReadMessage1(c, r0, m1.value).1, eR);
  }

  /** The three keys an undisturbed run derives, in order. */
  function DerivedKeys(c: Suite, sI: Priv, sR: Priv, eI: Priv, eR: Priv): (Bytes, Bytes, Bytes)
    requires c.dh(eR, c.publicKey(eI)).Some? && c.dh(sR, c.publicKey(eI)).Some? && c.dh(sI, c.publicKey(eR)).Some?
  {
    var (ck1, k1) := c.hkdf(PROTOCOL, c.dh(eR, c.publicKey(eI)).value);
    var (ck2, k2) := c.hkdf(ck1, c.dh(sR, c.publicKey(eI)).value);
    var (ck3, k3) := c.hkdf(ck2, c.dh(sI, c.publicKey(eR)).value);
    (k1, k2, k3)
  }

  /** An undisturbed run completes exactly when none of its derived keys is the all-zero key. */
  lemma Completes(c: Suite, sI: Priv, sR: Priv, eI: Priv, eR: Priv)
    requires Laws(c)
    ensures c.dh(eR, c.publicKey(eI)).Some? && c.dh(sR, c.publicKey(eI)).Some? && c.dh(sI, c.publicKey(eR)).Some?
    ensures Undisturbed(c, sI, sR, eI, eR).Some? <==>
      var (k1, k2, k3) := DerivedKeys(c, sI, sR, eI, eR);
      k1 != ZERO_KEY && k2 != ZERO_KEY && k3 != ZERO_KEY
  {
    assert c.valid(c.publicKey(eI)) && c.valid(c.publicKey(eR));
    assert c.dh(eR, c.publicKey(eI)).Some? && c.dh(sR, c.publicKey(eI)).Some? && c.dh(sI, c.publicKey(eR)).Some?;
    var i0, r0 := New(c, Initiator, sI), New(c, Responder, sR);
    Message1(c, i0, r0, eI);
    var (m1, i1) := WriteMessage1(c, i0, eI);
    var r1 := ReadMessage1(c, r0, m1.value).1;
    var (m2, r2) := WriteMessage2(c, r1, eR);
    if m2.Ok? {
      Message2(c, i1, r1, eR);
      var i2 := ReadMessage2(c, i1, m2.value).1;
      assert i2.k == r2.k;
      assert i2.sPriv == sI && i2.rEPub == c.publicKey(eR);
    }
  }

  // ----- no other way to the end

  datatype Call =
    | Write1(e: Priv)
    | Read1(msg: Bytes)
    | Write2(e: Priv)
    | Read2(msg: Bytes)
    | Write3
    | Read3(msg: Bytes)

  /** A party and the calls that have succeeded on it. */
  datatype Session = Session(p: Party, done: seq<Call>)

  /** Whether a call succeeds, and the party after it. */
  function DoCall(c: Suite, p: Party, call: Call): (bool, Party) {
    match call
    case Write1(e) => (WriteMessage1(c, p, e).0.Ok?, WriteMessage1(c, p, e).1)
    case Read1(m) => (ReadMessage1(c, p, m).0.Ok?, ReadMessage1(c, p, m).1)
    case Write2(e) => (WriteMessage2(c, p, e).0.Ok?, WriteMessage2(c, p, e).1)
    case Read2(m) => (ReadMessage2(c, p, m).0.Ok?, ReadMessage2(c, p, m).1)
    case Write3 => (WriteMessage3(c, p).0.Ok?, WriteMessage3(c, p).1)
    case Read3(m) => (ReadMessage3(c, p, m).0.Ok?, ReadMessage3(c, p, m).1)
  }

  function CallStep(c: Suite, s: Session, call: Call): Session {
    var (ok, p') := DoCall(c, s.p, call);
    Session(p', if ok then s.done + [call] else s.done)
  }

  /** The role and phase in which a call can succeed, and the phase it leads to. */
  function Turn(call: Call): (Role, Phase, Phase) {
    match call
    case Write1(_) => (Initiator, Ready, Msg1Sent)
    case Read1(_) => (Responder, Ready, Msg1Received)
    case Write2(_) => (Responder, Msg1Received, Msg2Sent)
    case Read2(_) => (Initiator, Msg1Sent, Msg2Received)
    case Write3 => (Initiator, Msg2Received, Done)
    case Read3(_) => (Responder, Msg2Sent, Done)
  }

  lemma CallTurns(c: Suite, p: Party, call: Call)
    ensures var (ok, p') := DoCall(c, p, call);
      && p'.role == p.role
      && (if ok then Turn(call) == (p.role, p.phase, p'.phase) else p'.phase == p.phase)
  {
    if call.Write1? || call.Write2? || call.Write3? {
      WriteTurns(c, p, call);
    }
  }

  lemma WriteTurns(c: Suite, p: Party, call: Call)
    requires call.Write1? || call.Write2? || call.Write3?
    ensures var (ok, p') := DoCall(c, p, call);
      && p'.role == p.role
      && (if ok then Turn(call) == (p.role, p.phase, p'.phase) else p'.phase == p.phase)
  {}

  /** The phase says which calls have succeeded, exactly. */
  predicate PhaseTells(s: Session) {
    var d := s.done;
    match s.p.phase
    case Ready => d == []
    case Msg1Sent => s.p.role == Initiator && |d| == 1 && d[0].Write1?
    case Msg1Received => s.p.role == Responder && |d| == 1 && d[0].Read1?
    case Msg2Sent => s.p.role == Responder && |d| == 2 && d[0].Read1? && d[1].Write2?
    case Msg2Received => s.p.role == Initiator && |d| == 2 && d[0].Write1? && d[1].Read2?
    case Done => |d| == 3 && if s.p.role == Initiator then d[0].Write1? && d[1].Read2? && d[2].Write3?
                             else d[0].Read1? && d[1].Write2? && d[2].Read3?
  }

  lemma CallKeepsPhase(c: Suite, s: Session, call: Call)
    requires PhaseTells(s)
    ensures PhaseTells(CallStep(c, s, call))
  {
    CallTurns(c, s.p, call);
    TurnTells(s, call, CallStep(c, s, call));
  }

  lemma TurnTells(s: Session, call: Call, s': Session)
    requires PhaseTells(s) && s'.p.role == s.p.role
    requires if s'.done == s.done + [call] then Turn(call) == (s.p.role, s.p.phase, s'.p.phase)
             else s'.p.phase == s.p.phase && s'.done == s.done
    ensures PhaseTells(s')
  {}

  /** However the methods are called, with whatever messages and however many failures in between,
      the handshake is done only after its three messages have succeeded in order, on this side. */
  lemma OnlyWayToDone(c: Suite, role: Role, staticKey: Priv, calls: seq<Call>)
    ensures PhaseTells(Runs.Run((s, call) => CallStep(c, s, call), Session(New(c, role, staticKey), []), calls))
  {
    var step := (s: Session, call: Call) => CallStep(c, s, call);
    forall s: Session, call: Call | PhaseTells(s) ensures PhaseTells(step(s, call)) {
      CallKeepsPhase(c, s, call);
    }
    Runs.Invariant(step, PhaseTells, Session(New(c, role, staticKey), []), calls);
  }

  // ----- the state machine as the agent runs it

  class NoiseXX {
    const suite: Suite
    const role: Role
    var phase: Phase
    var h: Bytes
    var ck: Bytes
    var k: Bytes
    var hasK: bool
    var ePriv: Priv
    var ePub: Bytes
    const sPriv: Priv
    const sPub: Bytes
    var rEPub: Bytes
    var rSPub: Bytes

    ghost function Snapshot(): Party
      reads this
    {
      Party(role, phase, h, ck, k, hasK, ePriv, ePub, sPriv, sPub, rEPub, rSPub)
    }

    constructor (suite: Suite, role: Role, staticKey: Priv)
      ensures this.suite == suite && Snapshot() == New(suite, role, staticKey)
    {
      this.suite, this.role, phase := suite, role, Ready;
      ck, k, hasK := PROTOCOL, ZERO_KEY, false;
      ePriv, ePub, rEPub, rSPub := 0, [], [], [];
      sPriv, sPub := staticKey, suite.publicKey(staticKey);
      h := suite.hash(PROTOCOL + []);
    }

    method MixKeyHere(ikm: Bytes)
      modifies this`ck, this`k, this`hasK
      ensures Snapshot() == MixKey(suite, old(Snapshot()), ikm)
    {
      var keys := suite.hkdf(ck, ikm);
      ck, k := keys.0, keys.1;
      hasK := true;
    }

    method MixDhHere(mine: Priv, theirs: Bytes) returns (res: Result<(), NoiseError>)
      modifies this`ck, this`k, this`hasK
      ensures (res, Snapshot()) == MixDh(suite, old(Snapshot()), mine, theirs)
    {
      if !suite.valid(theirs) { return Err(ImportFailed); }
      var secret := suite.dh(mine, theirs);
      if secret.None? { return Err(DhFailed); }
      MixKeyHere(secret.value);
      return Ok(());
    }

    method EncryptAndHashHere(plaintext: Bytes) returns (res: Result<Bytes, NoiseError>)
      modifies this`h
      ensures (res, Snapshot()) == EncryptAndHash(suite, old(Snapshot()), plaintext)
    {
      if !hasK { return Err(KeyNotInitialized); }
      var cs := new CipherState(suite, k);
      res := cs.EncryptWithAd(h, plaintext);
      if res.Ok? { h := suite.hash(h + res.value); }
    }

    method DecryptAndHashHere(ciphertext: Bytes) returns (res: Result<Bytes, NoiseError>)
      modifies this`h
      ensures (res, Snapshot()) == DecryptAndHash(suite, old(Snapshot()), ciphertext)
    {
      if !hasK { return Err(KeyNotInitialized); }
      var cs := new CipherState(suite, k);
      res := cs.DecryptWithAd(h, ciphertext);
      if res.Ok? { h := suite.hash(h + ciphertext); }
    }

    method SendMessage1(e: Priv) returns (res: Result<Bytes, NoiseError>)
      modifies this
      ensures (res, Snapshot()) == WriteMessage1(suite, old(Snapshot()), e)
    {
      if role != Initiator { return Err(WrongRole); }
      if phase != Ready { return Err(WrongPhase); }
      ePriv := e;
      ePub := suite.publicKey(e);
      h := suite.hash(h + ePub);
      phase := Msg1Sent;
      return Ok(ePub);
    }

    method ReceiveMessage1(msg: Bytes) returns (res: Result<(), NoiseError>)
      modifies this
      ensures (res, Snapshot()) == ReadMessage1(suite, old(Snapshot()), msg)
    {
      if role != Responder { return Err(WrongRole); }
      if phase != Ready { return Err(WrongPhase); }
      if |msg| != 65 { return Err(WrongLength); }
      rEPub := msg;
      h := suite.hash(h + rEPub);
      phase := Msg1Received;
      return Ok(());
    }

    method SendMessage2(e: Priv) returns (res: Result<Bytes, NoiseError>)
      modifies this
      ensures (res, Snapshot()) == WriteMessage2(suite, old(Snapshot()), e)
    {
      if role != Responder { return Err(WrongRole); }
      if phase != Msg1Received { return Err(WrongPhase); }
      ePriv := e;
      ePub := suite.publicKey(e);
      h := suite.hash(h + ePub);
      var buf := ePub;
      var ee := MixDhHere(ePriv, rEPub);
      if ee.Err? { return Err(ee.error); }
      var encS := EncryptAndHashHere(sPub);
      if encS.Err? { return encS; }
      buf := buf + encS.value;
      var es := MixDhHere(sPriv, rEPub);
      if es.Err? { return Err(es.error); }
      var tag := EncryptAndHashHere([]);
      if tag.Err? { return tag; }
      buf := buf + tag.value;
      phase := Msg2Sent;
      return Ok(buf);
    }

    method ReceiveMessage2(msg: Bytes) returns (res: Result<(), NoiseError>)
      modifies this
      ensures (res, Snapshot()) == ReadMessage2(suite, old(Snapshot()), msg)
    {
      if role != Initiator { return Err(WrongRole); }
      if phase != Msg1Sent { return Err(WrongPhase); }
      if |msg| != 162 { return Err(WrongLength); }
      rEPub := msg[..65];
      h := suite.hash(h + rEPub);
      var ee := MixDhHere(ePriv, rEPub);
      if ee.Err? { return ee; }
      var rs := DecryptAndHashHere(msg[65..146]);
      if rs.Err? { return Err(rs.error); }
      rSPub := rs.value;
      var es := MixDhHere(ePriv, rSPub);
      if es.Err? { return es; }
      var end := DecryptAndHashHere(msg[146..162]);
      if end.Err? { return Err(end.error); }
      phase := Msg2Received;
      return Ok(());
    }

    method SendMessage3() returns (res: Result<Bytes, NoiseError>)
      modifies this
      ensures (res, Snapshot()) == WriteMessage3(suite, old(Snapshot()))
    {
      if role != Initiator { return Err(WrongRole); }
      if phase != Msg2Received { return Err(WrongPhase); }
      var encS := EncryptAndHashHere(sPub);
      if encS.Err? { return encS; }
      var se := MixDhHere(sPriv, rEPub);
      if se.Err? { return Err(se.error); }
      var tag := EncryptAndHashHere([]);
      if tag.Err? { return tag; }
      phase := Done;
      return Ok(encS.value + tag.value);
    }

    method ReceiveMessage3(msg: Bytes) returns (res: Result<(), NoiseError>)
      modifies this
      ensures (res, Snapshot()) == ReadMessage3(suite, old(Snapshot()), msg)
    {
      if role != Responder { return Err(WrongRole); }
      if phase != Msg2Sent { return Err(WrongPhase); }
      if |msg| != 97 { return Err(WrongLength); }
      var iS := DecryptAndHashHere(msg[..81]);
      if iS.Err? { return Err(iS.error); }
      rSPub := iS.value;
      var se := MixDhHere(ePriv, rSPub);
      if se.Err? { return se; }
      var end := DecryptAndHashHere(msg[81..97]);
      if end.Err? { return Err(end.error); }
      phase := Done;
      return Ok(());
    }

    method SplitKeys() returns (send: CipherState, recv: CipherState)
      requires phase == Done
      ensures fresh(send) && fresh(recv) && send.suite == suite && recv.suite == suite
      ensures (send.Snapshot(), recv.Snapshot()) == Split(suite, Snapshot())
    {
      var keys := suite.hkdf(ck, []);
      var cs1 := new CipherState(suite, keys.0);
      var cs2 := new CipherState(suite, keys.1);
      if role == Initiator { return cs1, cs2; }
      return cs2, cs1;
    }
  }

  // ----- the laws can be met

  function Toy(): Suite {
    Suite(
      (a: Priv) => seq(65, i => 0),
      (b: Bytes) => true,
      (a: Priv, b: Bytes) => Some([]),
      (b: Bytes) => b,
      (a: Bytes, b: Bytes) => ([1], [1]),
      (k: Bytes, n: Bytes, ad: Bytes, pt: Bytes) => pt + seq(16, i => 0),
      (k: Bytes, n: Bytes, ad: Bytes, ct: Bytes) => if |ct| < 16 then None else Some(ct[..|ct| - 16]))
  }

  /** The laws are consistent, and runs complete under them. */
  lemma LawsAreConsistent()
    ensures Laws(Toy()) && Undisturbed(Toy(), 0, 0, 0, 0).Some?
  {
    var c := Toy();
    forall k: Bytes, n: Bytes, ad: Bytes, pt: Bytes ensures c.open(k, n, ad, c.seal(k, n, ad, pt)) == Some(pt) {
      assert (pt + seq(16, i => 0))[..|pt|] == pt;
    }
    Completes(c, 0, 0, 0, 0);
  }
}
