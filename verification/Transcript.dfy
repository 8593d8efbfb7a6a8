/**
 The whole handshake written out once, from the four private keys: every byte of the three messages,
 the transcript hash, the chaining key and the two keys that come out of it.
 */
module Transcript {
  import opened Basics
  import opened Noise
  import Frames

  const NONCE_0: Bytes := [0, 0, 0, 0, 0, 0, 0, 0, 0, 0, 0, 0]

  const NAME := "Noise_XX_P256_AESGCM_SHA256"

  /** The first hash and the first chaining key are the protocol's name in ASCII, padded with zeros to 32 bytes. */
  lemma StartsFromTheName()
    ensures |PROTOCOL| == 32 && |NAME| == 27
    ensures forall i :: 0 <= i < 27 ==> PROTOCOL[i] == NAME[i] as int
    ensures forall i :: 27 <= i < 32 ==> PROTOCOL[i] == 0
  {
  }

  datatype Script = Script(m1: Bytes, m2: Bytes, m3: Bytes, h: Bytes, ck: Bytes, first: Bytes, second: Bytes)

  /** The pattern XX: e; e, ee, s, es; s, se. The keys after each token seal with nonce 0. */
  function Written(c: Suite, sI: Priv, sR: Priv, eI: Priv, eR: Priv): Script
    requires c.dh(eR, c.publicKey(eI)).Some? && c.dh(sR, c.publicKey(eI)).Some? && c.dh(sI, c.publicKey(eR)).Some?
  {
    var (ck1, k1) := c.hkdf(PROTOCOL, c.dh(eR, c.publicKey(eI)).value);
    var (ck2, k2) := c.hkdf(ck1, c.dh(sR, c.publicKey(eI)).value);
    var (ck3, k3) := c.hkdf(ck2, c.dh(sI, c.publicKey(eR)).value);
    var h1 := c.hash(c.hash(PROTOCOL) + c.publicKey(eI));
    var h2 := c.hash(h1 + c.publicKey(eR));
    var sealedR := c.seal(k1, NONCE_0, h2, c.publicKey(sR));
    var h3 := c.hash(h2 + sealedR);
    var tag2 := c.seal(k2, NONCE_0, h3, []);
    var h4 := c.hash(h3 + tag2);
    var sealedI := c.seal(k2, NONCE_0, h4, c.publicKey(sI));
    var h5 := c.hash(h4 + sealedI);
    var tag3 := c.seal(k3, NONCE_0, h5, []);
    var (first, second) := c.hkdf(ck3, []);
    Script(c.publicKey(eI), c.publicKey(eR) + sealedR + tag2, sealedI + tag3, c.hash(h5 + tag3), ck3, first, second)
  }

  lemma Nonce0()
    ensures NonceBytes(0) == NONCE_0
  {
    assert Frames.BigEndian(0, 2) == [0, 0];
    assert Frames.BigEndian(0, 4) == [0, 0, 0, 0];
    assert Frames.BigEndian(0, 6) == [0, 0, 0, 0, 0, 0];
  }

  lemma FirstMessage(c: Suite, s: Priv, e: Priv)
    ensures var i := WriteMessage1(c, New(c, Initiator, s), e).1;
      && i.h == c.hash(c.hash(PROTOCOL) + c.publicKey(e)) && i.ck == PROTOCOL && i.ePriv == e && i.sPriv == s
      && i.sPub == c.publicKey(s) && !i.hasK && i.phase == Msg1Sent && i.role == Initiator
      && WriteMessage1(c, New(c, Initiator, s), e).0 == Ok(c.publicKey(e))
  {
    assert PROTOCOL + [] == PROTOCOL;
  }

  lemma SecondMessage(c: Suite, r: Party, e: Priv)
    requires Laws(c) && r.role == Responder && r.phase == Msg1Received && c.valid(r.rEPub)
    requires c.dh(e, r.rEPub).Some? && c.dh(r.sPriv, r.rEPub).Some? && WriteMessage2(c, r, e).0.Ok?
    ensures var (ck1, k1) := c.hkdf(r.ck, c.dh(e, r.rEPub).value);
      var (ck2, k2) := c.hkdf(ck1, c.dh(r.sPriv, r.rEPub).value);
      var h2 := c.hash(r.h + c.publicKey(e));
      var sealed := c.seal(k1, NONCE_0, h2, r.sPub);
      var h3 := c.hash(h2 + sealed);
      var tag := c.seal(k2, NONCE_0, h3, []);
      var r' := WriteMessage2(c, r, e).1;
      && WriteMessage2(c, r, e).0 == Ok(c.publicKey(e) + sealed + tag)
      && r'.h == c.hash(h3 + tag) && r'.ck == ck2 && r'.k == k2 && r'.hasK
  {
    Nonce0();
  }

  lemma ThirdMessage(c: Suite, i: Party)
    requires Laws(c) && i.role == Initiator && i.phase == Msg2Received && i.hasK && c.valid(i.rEPub)
    requires c.dh(i.sPriv, i.rEPub).Some? && WriteMessage3(c, i).0.Ok?
    ensures var (ck3, k3) := c.hkdf(i.ck, c.dh(i.sPriv, i.rEPub).value);
      var sealed := c.seal(i.k, NONCE_0, i.h, i.sPub);
      var h5 := c.hash(i.h + sealed);
      var tag := c.seal(k3, NONCE_0, h5, []);
      var i' := WriteMessage3(c, i).1;
      WriteMessage3(c, i).0 == Ok(sealed + tag) && i'.h == c.hash(h5 + tag) && i'.ck == ck3
  {
    Nonce0();
  }

  /** An undisturbed run is that script, byte for byte. */
  lemma RunFollowsScript(c: Suite, sI: Priv, sR: Priv, eI: Priv, eR: Priv)
    requires Laws(c) && Undisturbed(c, sI, sR, eI, eR).Some?
    ensures c.dh(eR, c.publicKey(eI)).Some? && c.dh(sR, c.publicKey(eI)).Some? && c.dh(sI, c.publicKey(eR)).Some?
    ensures var x := Undisturbed(c, sI, sR, eI, eR).value;
      var w := Written(c, sI, sR, eI, eR);
      (x.m1, x.m2, x.m3, x.i.h, x.i.ck) == (w.m1, w.m2, w.m3, w.h, w.ck)
  {
    assert c.dh(eR, c.publicKey(eI)).Some? && c.dh(sR, c.publicKey(eI)).Some? && c.dh(sI, c.publicKey(eR)).Some?;
    assert c.valid(c.publicKey(eI)) && c.valid(c.publicKey(eR));
    var i0, r0 := New(c, Initiator, sI), New(c, Responder, sR);
    FirstMessage(c, sI, eI);
    Message1(c, i0, r0, eI);
    var (m1, i1) := WriteMessage1(c, i0, eI);
    var r1 := ReadMessage1(c, r0, m1.value).1;
    SecondMessage(c, r1, eR);
    Message2(c, i1, r1, eR);
    var (m2, r2) := WriteMessage2(c, r1, eR);
    var i2 := ReadMessage2(c, i1, m2.value).1;
    assert i2.sPriv == sI && i2.sPub == c.publicKey(sI) && i2.role == Initiator && i2.phase == Msg2Received;
    ThirdMessage(c, i2);
  }

  /** The initiator sends with the first of the two keys and receives with the second, the responder the
      other way round. */
  lemma KeysFollowScript(c: Suite, sI: Priv, sR: Priv, eI: Priv, eR: Priv)
    requires Laws(c) && Undisturbed(c, sI, sR, eI, eR).Some?
    ensures c.dh(eR, c.publicKey(eI)).Some? && c.dh(sR, c.publicKey(eI)).Some? && c.dh(sI, c.publicKey(eR)).Some?
    ensures var x := Undisturbed(c, sI, sR, eI, eR).value;
      var w := Written(c, sI, sR, eI, eR);
      && x.i.phase == Done && x.r.phase == Done
      && Split(c, x.i) == (Cipher(w.first, 0), Cipher(w.second, 0))
      && Split(c, x.r) == (Cipher(w.second, 0), Cipher(w.first, 0))
  {
    Agreement(c, sI, sR, eI, eR);
    RunFollowsScript(c, sI, sR, eI, eR);
    RolesStay(c, sI, sR, eI, eR);
  }

  lemma RolesStay(c: Suite, sI: Priv, sR: Priv, eI: Priv, eR: Priv)
    requires Undisturbed(c, sI, sR, eI, eR).Some?
    ensures var x := Undisturbed(c, sI, sR, eI, eR).value; x.i.role == Initiator && x.r.role == Responder
  {
    var i0, r0 := New(c, Initiator, sI), New(c, Responder, sR);
    CallTurns(c, i0, Write1(eI));
    var (m1, i1) := WriteMessage1(c, i0, eI);
    CallTurns(c, r0, Read1(m1.value));
    var r1 := ReadMessage1(c, r0, m1.value).1;
    CallTurns(c, r1, Write2(eR));
    var (m2, r2) := WriteMessage2(c, r1, eR);
    CallTurns(c, i1, Read2(m2.value));
    var i2 := ReadMessage2(c, i1, m2.value).1;
    CallTurns(c, i2, Write3);
    CallTurns(c, r2, Read3(WriteMessage3(c, i2).0.value));
  }
}
