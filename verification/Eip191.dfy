/**
 The message an Ethereum beneficiary of a token claim signs: EIP-191 with version byte 0x45,
 over the claim message followed by a separator and the literal of the destination account.
 */
module Eip191 {
  import opened Prelude
  import opened Decimal

  predicate IsAscii(s: string) {
    forall i :: 0 <= i < |s| ==> s[i] as int < 128
  }

  function AsBytes(s: string): (b: Bytes)
    requires IsAscii(s)
    ensures |b| == |s|
  {
    seq(|s|, i requires 0 <= i < |s| => s[i] as int)
  }

  const PREFIX: Bytes := [0x19] + AsBytes("Ethereum Signed Message:\n")

  /** What is hashed for a message. */
  function Frame(message: Bytes): Bytes {
    PREFIX + AsBytes(Digits(|message|)) + message
  }

  /** What an Ethereum beneficiary signs to have a claim paid to `literal`. */
  function Payload(claim: Bytes, separator: Bytes, literal: Bytes): Bytes {
    claim + separator + literal
  }

  /** The layout of EIP-191 with version byte 0x45: the prefix, the length of the message as a decimal
      numeral without superfluous zeros, the message. */
  ghost predicate Framed(buffer: Bytes, message: Bytes) {
    exists numeral: string ::
      && IsDigits(numeral) && numeral != [] && (|numeral| > 1 ==> numeral[0] != '0')
      && Value(numeral) == |message|
      && buffer == PREFIX + AsBytes(numeral) + message
  }

  /** `eip191_hash_message`, extending a buffer: the digest is of a buffer laid out that way. */
  method HashMessage(hash: Bytes -> Digest, message: Bytes) returns (digest: Digest)
    ensures exists buffer :: Framed(buffer, message) && digest == hash(buffer)
  {
    var buffer := PREFIX;
    buffer := buffer + AsBytes(Digits(|message|));
    buffer := buffer + message;
    FramedExactly(buffer, message);
    digest := hash(buffer);
  }

  /** There is exactly one such buffer for every message. */
  lemma FramedExactly(buffer: Bytes, message: Bytes)
    ensures Framed(buffer, message) <==> buffer == Frame(message)
  {
    var digits := Digits(|message|);
    DigitsRoundTrip(|message|);
    if buffer == Frame(message) {
      if |message| == 0 { assert |digits| == 1; }
    }
    if Framed(buffer, message) {
      var numeral: string :| && IsDigits(numeral) && numeral != [] && (|numeral| > 1 ==> numeral[0] != '0')
                             && Value(numeral) == |message| && buffer == PREFIX + AsBytes(numeral) + message;
      NumeralUnique(numeral);
    }
  }

  /** 0x19, the version byte 0x45, and the rest of the text. */
  lemma PrefixBytes()
    ensures PREFIX == [0x19, 0x45, 0x74, 0x68, 0x65, 0x72, 0x65, 0x75, 0x6D, 0x20, 0x53, 0x69, 0x67, 0x6E, 0x65, 0x64,
                       0x20, 0x4D, 0x65, 0x73, 0x73, 0x61, 0x67, 0x65, 0x3A, 0x0A]
  {
  }

  /** A buffer starts with the prefix and ends with the message. */
  lemma FrameStart(buffer: Bytes, message: Bytes)
    requires Framed(buffer, message)
    ensures |buffer| >= |PREFIX| + |message|
    ensures buffer[..|PREFIX|] == PREFIX && buffer[|buffer| - |message|..] == message
  {
  }

  /** Longer messages have strictly longer frames. */
  lemma FrameGrows(x: Bytes, y: Bytes)
    ensures |x| < |y| <==> |Frame(x)| < |Frame(y)|
  {
    if |x| <= |y| { DigitsLonger(|x|, |y|); } else { DigitsLonger(|y|, |x|); }
  }

  /** Two messages with the same frame are the same: the length field is not delimited, but the
      length of the frame settles it. */
  lemma FrameInjective(x: Bytes, y: Bytes)
    requires Frame(x) == Frame(y)
    ensures x == y
  {
    FrameGrows(x, y);
    FrameGrows(y, x);
    var head := PREFIX + AsBytes(Digits(|x|));
    assert Frame(x)[|head|..] == x && Frame(y)[|head|..] == y;
  }

  /** For a fixed claim and separator the frame determines the destination's literal. */
  lemma PayloadInjective(claim: Bytes, separator: Bytes, a: Bytes, b: Bytes)
    requires Frame(Payload(claim, separator, a)) == Frame(Payload(claim, separator, b))
    ensures a == b
  {
    FrameInjective(Payload(claim, separator, a), Payload(claim, separator, b));
    var n := |claim + separator|;
    assert Payload(claim, separator, a)[n..] == a && Payload(claim, separator, b)[n..] == b;
  }

  /** For a fixed separator and destination the frame determines the claim: it is part of what is signed. */
  lemma ClaimBound(x: Bytes, y: Bytes, separator: Bytes, literal: Bytes)
    requires Frame(Payload(x, separator, literal)) == Frame(Payload(y, separator, literal))
    ensures x == y
  {
    FrameInjective(Payload(x, separator, literal), Payload(y, separator, literal));
    var n := |separator + literal|;
    assert Payload(x, separator, literal)[..|x|] == x && Payload(y, separator, literal)[..|y|] == y;
  }

  /* ---------- verifying a claim ---------- */

  datatype Beneficiary = Substrate(account: nat) | Ethereum(address: Bytes)

  datatype Signature = SubstrateSignature(bytes: Bytes) | EthereumSignature(bytes: Bytes, dest: nat)

  /** The chain's account literals and its signature schemes. */
  datatype Scheme = Scheme(
    literal: nat -> Bytes,
    separator: Bytes,
    hash: Bytes -> Digest,
    recover: (Digest, Bytes) -> Option<Bytes>,
    verifies: (Bytes, Bytes, nat) -> bool)

  const MSG_PREFIX: Bytes := AsBytes("<Bytes>")
  const MSG_SUFFIX: Bytes := AsBytes("</Bytes>")

  function Verify(scheme: Scheme, claim: Bytes, who: Beneficiary, s: Signature): bool {
    match (who, s)
    case (Substrate(account), SubstrateSignature(bytes)) =>
      scheme.verifies(bytes, MSG_PREFIX + claim + MSG_SUFFIX, account) || scheme.verifies(bytes, claim, account)
    case (Ethereum(address), EthereumSignature(bytes, dest)) =>
      scheme.recover(scheme.hash(Frame(Payload(claim, scheme.separator, scheme.literal(dest)))), bytes) == Some(address)
    case _ => false
  }

  /** `<Bytes>`, the claim, `</Bytes>`. */
  ghost predicate Wrapped(message: Bytes, claim: Bytes) {
    && |message| == 7 + |claim| + 8
    && message[..7] == [0x3C, 0x42, 0x79, 0x74, 0x65, 0x73, 0x3E]
    && message[7..7 + |claim|] == claim
    && message[7 + |claim|..] == [0x3C, 0x2F, 0x42, 0x79, 0x74, 0x65, 0x73, 0x3E]
  }

  /** A Substrate beneficiary's signature counts exactly if it is over the claim, or over the claim wrapped
      once; an Ethereum beneficiary's exactly if the beneficiary is recovered from it and the
      digest of the framed claim, separator and destination; no other combination does. */
  lemma VerifyExactly(scheme: Scheme, claim: Bytes, who: Beneficiary, s: Signature)
    ensures who.Substrate? && s.SubstrateSignature? ==>
              (Verify(scheme, claim, who, s) <==>
                 exists message :: (message == claim || Wrapped(message, claim))
                                   && scheme.verifies(s.bytes, message, who.account))
    ensures who.Ethereum? && s.EthereumSignature? ==>
              (Verify(scheme, claim, who, s) <==>
                 exists buffer :: Framed(buffer, claim + scheme.separator + scheme.literal(s.dest))
                                  && scheme.recover(scheme.hash(buffer), s.bytes) == Some(who.address))
    ensures (who.Substrate? <==> s.EthereumSignature?) ==> !Verify(scheme, claim, who, s)
  {
    match (who, s) {
      case (Substrate(account), SubstrateSignature(bytes)) =>
        WrappedIs(MSG_PREFIX + claim + MSG_SUFFIX, claim);
        if message :| Wrapped(message, claim) && scheme.verifies(bytes, message, account) {
          WrappedIs(message, claim);
        }
      case (Ethereum(address), EthereumSignature(bytes, dest)) =>
        var message := claim + scheme.separator + scheme.literal(dest);
        FramedExactly(Frame(message), message);
        if buffer :| Framed(buffer, message) && scheme.recover(scheme.hash(buffer), bytes) == Some(address) {
          FramedExactly(buffer, message);
        }
      case _ =>
    }
  }

  lemma WrappedIs(message: Bytes, claim: Bytes)
    ensures Wrapped(message, claim) <==> message == MSG_PREFIX + claim + MSG_SUFFIX
  {
    var whole := MSG_PREFIX + claim + MSG_SUFFIX;
    assert whole[..7] == MSG_PREFIX && whole[7..7 + |claim|] == claim && whole[7 + |claim|..] == MSG_SUFFIX;
    assert MSG_PREFIX == [0x3C, 0x42, 0x79, 0x74, 0x65, 0x73, 0x3E];
    assert MSG_SUFFIX == [0x3C, 0x2F, 0x42, 0x79, 0x74, 0x65, 0x73, 0x3E];
    if Wrapped(message, claim) {
      assert message == message[..7] + message[7..7 + |claim|] + message[7 + |claim|..];
    }
  }

  /** A claim wrapped twice is neither. */
  lemma TwiceWrapped(claim: Bytes, once: Bytes, twice: Bytes)
    requires Wrapped(once, claim) && Wrapped(twice, once)
    ensures twice != claim && !Wrapped(twice, claim)
  {
  }

  ghost predicate Collision(hash: Bytes -> Digest, x: Bytes, y: Bytes) {
    x != y && hash(x) == hash(y)
  }

  /** The digest that is signed to have a claim paid to an account. */
  ghost function SignedDigest(scheme: Scheme, claim: Bytes, dest: nat): Digest {
    scheme.hash(Frame(Payload(claim, scheme.separator, scheme.literal(dest))))
  }

  ghost predicate DistinctLiterals(scheme: Scheme) {
    forall x, y :: scheme.literal(x) == scheme.literal(y) ==> x == y
  }

  /** Two destinations never share a frame, so they share a digest exactly if the hash collides there. */
  lemma DestinationsDiffer(scheme: Scheme, claim: Bytes, a: nat, b: nat)
    requires DistinctLiterals(scheme) && a != b
    ensures var x := Frame(Payload(claim, scheme.separator, scheme.literal(a)));
            var y := Frame(Payload(claim, scheme.separator, scheme.literal(b)));
            && x != y
            && (SignedDigest(scheme, claim, a) == SignedDigest(scheme, claim, b) <==> Collision(scheme.hash, x, y))
  {
    if Frame(Payload(claim, scheme.separator, scheme.literal(a)))
      == Frame(Payload(claim, scheme.separator, scheme.literal(b))) {
      PayloadInjective(claim, scheme.separator, scheme.literal(a), scheme.literal(b));
    }
  }

  /** A signature that recovers to the beneficiary from one digest only is accepted for one destination
      only, unless the hash collides on the frames of the two. */
  lemma DestinationBound(scheme: Scheme, claim: Bytes, address: Bytes, signed: Bytes, a: nat, b: nat)
    requires DistinctLiterals(scheme)
    requires forall x, y :: scheme.recover(x, signed) == scheme.recover(y, signed) == Some(address) ==> x == y
    requires Verify(scheme, claim, Ethereum(address), EthereumSignature(signed, a))
    requires Verify(scheme, claim, Ethereum(address), EthereumSignature(signed, b))
    ensures a == b || Collision(scheme.hash, Frame(Payload(claim, scheme.separator, scheme.literal(a))),
                                Frame(Payload(claim, scheme.separator, scheme.literal(b))))
  {
    if a != b { DestinationsDiffer(scheme, claim, a, b); }
  }
}
