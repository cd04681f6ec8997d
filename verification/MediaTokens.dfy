/** Media tokens: an expiry and a keyed hash over the video and the expiry. The hash is ideal:
    under one secret different payloads have different hashes. */
module MediaTokens {
  import opened Model
  import opened Encoding

  type Mac = (string, string) -> string

  ghost predicate Ideal(mac: Mac) {
    && (forall secret, p :: Bytes(mac(secret, p)))
    && (forall secret, p, q :: mac(secret, p) == mac(secret, q) ==> p == q)
  }

  function Payload(video: string, expiry: string): string {
    "video_id:" + (video + (":" + expiry))
  }

  predicate Int64(n: int) {
    -INT64 <= n < INT64
  }

  function SignMediaToken(mac: Mac, video: string, secret: string, expiry: int): string
    requires Bytes(mac(secret, Payload(video, FormatInt(expiry))))
  {
    var stamp := FormatInt(expiry);
    RawIsBytes(expiry, mac(secret, Payload(video, stamp)));
    EncodeBase64(stamp + ['.'] + HexEncode(mac(secret, Payload(video, stamp))))
  }

  datatype Verdict = Valid | Malformed | Expired | Mismatch

  function VerifyMediaToken(mac: Mac, token: string, video: string, secret: string, now: int): Verdict {
    var raw := DecodeBase64(token);
    if token == "" || raw.None? then Malformed
    else
      var parts := Cut(raw.value, '.');
      if parts.None? || ParseInt(parts.value.0).None? then Malformed
      else if now > ParseInt(parts.value.0).value then Expired
      else
        var got := HexDecode(parts.value.1);
        if got.None? then Malformed
        else if got.value == mac(secret, Payload(video, parts.value.0)) then Valid else Mismatch
  }

  lemma RawIsBytes(expiry: int, tag: string)
    requires Bytes(tag)
    ensures Bytes(FormatInt(expiry) + ['.'] + HexEncode(tag)) && '.' !in FormatInt(expiry)
    ensures Bytes(FormatInt(expiry))
  {
    HexDecodeInverse(tag);
    assert Digits(Decimal(if expiry < 0 then -expiry else expiry));
  }

  /** The theorem: a token is accepted until its expiry, for the video it was signed for, and for
      no other. */
  lemma TokenVerifiesIff(mac: Mac, video: string, other: string, secret: string, expiry: int, now: int)
    requires Ideal(mac) && Int64(expiry)
    ensures VerifyMediaToken(mac, SignMediaToken(mac, video, secret, expiry), other, secret, now) == Valid
      <==> other == video && now <= expiry
  {
    var stamp := FormatInt(expiry);
    var tag := mac(secret, Payload(video, stamp));
    RawIsBytes(expiry, tag);
    var raw := stamp + ['.'] + HexEncode(tag);
    Base64Inverse(raw);
    EncodedHasNoBreaks(raw);
    CutAtFirst(stamp, '.', HexEncode(tag));
    ParseFormat(expiry);
    HexDecodeInverse(tag);
    PayloadIsInjective(video, other, stamp);
  }

  lemma PayloadIsInjective(video: string, other: string, stamp: string)
    ensures Payload(video, stamp) == Payload(other, stamp) <==> video == other
  {
    var a, b := Payload(video, stamp), Payload(other, stamp);
    if a == b {
      assert |video| == |other|;
      assert video == a[9..9 + |video|] && other == b[9..9 + |other|];
    }
  }

  // ----- every token -----

  /** The token is base64 of a stamp that is a number, a dot and a signature. */
  predicate Splits(token: string, stamp: string, sig: string) {
    DecodeBase64(token) == Some(stamp + ['.'] + sig) && '.' !in stamp && ParseInt(stamp).Some?
  }

  predicate Signed(mac: Mac, video: string, secret: string, stamp: string, sig: string) {
    HexDecode(sig) == Some(mac(secret, "video_id:" + video + ":" + stamp))
  }

  /** The verdict on any token whatever: it is accepted if and only if it splits into a stamp that is not
      over and the keyed hash of this video and this stamp. */
  lemma VerdictIff(mac: Mac, token: string, video: string, secret: string, now: int)
    ensures
      var verdict := VerifyMediaToken(mac, token, video, secret, now);
      && (verdict == Valid <==>
           exists stamp, sig :: Splits(token, stamp, sig) && now <= ParseInt(stamp).value && Signed(mac, video, secret, stamp, sig))
      && (verdict == Expired <==> exists stamp, sig :: Splits(token, stamp, sig) && ParseInt(stamp).value < now)
      && (verdict == Mismatch <==>
           exists stamp, sig ::
             Splits(token, stamp, sig) && now <= ParseInt(stamp).value && HexDecode(sig).Some? && !Signed(mac, video, secret, stamp, sig))
  {
    forall stamp, sig | Splits(token, stamp, sig) ensures Judged(mac, token, video, secret, now, stamp, sig) {
      CutAtFirst(stamp, '.', sig);
      PayloadIs(video, stamp);
    }
    var raw := DecodeBase64(token);
    if raw.Some? && Cut(raw.value, '.').Some? {
      var stamp, sig := Cut(raw.value, '.').value.0, Cut(raw.value, '.').value.1;
      CutSplits(raw.value, '.');
      assert ParseInt(stamp).Some? ==> Splits(token, stamp, sig) && Judged(mac, token, video, secret, now, stamp, sig);
    }
  }

  predicate Judged(mac: Mac, token: string, video: string, secret: string, now: int, stamp: string, sig: string)
    requires ParseInt(stamp).Some?
  {
    VerifyMediaToken(mac, token, video, secret, now) ==
      if ParseInt(stamp).value < now then Expired
      else if HexDecode(sig).None? then Malformed
      else if Signed(mac, video, secret, stamp, sig) then Valid else Mismatch
  }

  lemma PayloadIs(video: string, stamp: string)
    ensures Payload(video, stamp) == "video_id:" + video + ":" + stamp
  {
  }

  /** No token opens two videos. */
  lemma OneVideoPerToken(mac: Mac, token: string, video: string, other: string, secret: string, now: int)
    requires Ideal(mac)
    requires VerifyMediaToken(mac, token, video, secret, now) == Valid && VerifyMediaToken(mac, token, other, secret, now) == Valid
    ensures video == other
  {
    PayloadIsInjective(video, other, Cut(DecodeBase64(token).value, '.').value.0);
  }
}
