/** What a channel sends and reads in an OPEN message, field by field. */
module DataChannelWire {
  import opened DataChannelOpen
  import opened Integers
  import opened Wrappers

  // ---- What a channel sends ----

  /** The channel type in bits: 0x80 for unordered, 0x01 for a retransmit limit, 0x02 for a
      lifetime. */
  function TypeBits(p: Params): int {
    (if p.ordered then 0 else 0x80) + (if p.maxRetransmits != -1 then 0x01 else 0)
    + (if p.maxLifeTime != -1 then 0x02 else 0)
  }

  /** A limit as an unsigned 32-bit parameter. */
  predicate Stands(x: int, limit: int) { 0 <= x < 4294967296 && (x == limit || x == limit + 4294967296) }

  /** A label or protocol up to its first zero byte, or what is left of it modulo 65536. */
  predicate Sent(sent: seq<Byte>, text: seq<Byte>) {
    && sent <= text && 0 !in sent
    && (forall n: nat :: n <= |text| && 0 !in text[..n] && (n < |text| ==> text[n] == 0) ==> |sent| == n % 65536)
  }

  /** A channel with at most one limit sends an OPEN that carries its own ordering, limit,
      priority, label and protocol; one with both sends none. */
  lemma EncodedOnWire(p: Params)
    ensures Encode(p).Some? <==> p.maxLifeTime == -1 || p.maxRetransmits == -1
    ensures Encode(p).Some? ==>
              exists reliability: int, labelText: seq<Byte>, protocol: seq<Byte> ::
                && OnWire(Encode(p).value, TypeBits(p), p.priority % 65536, reliability, labelText, protocol)
                && Sent(labelText, p.labelText) && Sent(protocol, p.protocol)
                && (p.maxRetransmits != -1 ==> Stands(reliability, p.maxRetransmits))
                && (p.maxLifeTime != -1 ==> Stands(reliability, p.maxLifeTime))
                && (p.maxRetransmits == -1 && p.maxLifeTime == -1 ==> reliability == 0)
  {
    if p.maxLifeTime == -1 || p.maxRetransmits == -1 {
      EncodedFields(p);
      WrittenOnWire(ChannelType(p), Reliability(p), p.priority % 0x1_0000, Cut(p.labelText), Cut(p.protocol));
      CutIsSent(p.labelText);
      CutIsSent(p.protocol);
      EncodedLimit(p);
      assert OnWire(Encode(p).value, TypeBits(p), p.priority % 65536, Reliability(p),
                    Cut(p.labelText), Cut(p.protocol));
    }
  }

  lemma CutIsSent(text: seq<Byte>)
    ensures Sent(Cut(text), text)
  {
    forall n: nat | n <= |text| && 0 !in text[..n] && (n < |text| ==> text[n] == 0)
      ensures |Cut(text)| == n % 65536
    {
      CStringEnds(text, n);
    }
  }

  lemma {:induction false} CStringEnds(text: seq<Byte>, n: nat)
    requires n <= |text| && 0 !in text[..n] && (n < |text| ==> text[n] == 0)
    ensures |CString(text)| == n
    decreases n
  {
    if n > 0 {
      assert text[..n][0] == text[0] && text[1..][..n - 1] == text[..n][1..];
      CStringEnds(text[1..], n - 1);
    }
  }

  lemma EncodedLimit(p: Params)
    requires p.maxLifeTime == -1 || p.maxRetransmits == -1
    ensures ChannelType(p) == TypeBits(p)
    ensures p.maxRetransmits != -1 ==> Stands(Reliability(p), p.maxRetransmits)
    ensures p.maxLifeTime != -1 ==> Stands(Reliability(p), p.maxLifeTime)
    ensures p.maxRetransmits == -1 && p.maxLifeTime == -1 ==> Reliability(p) == 0
  {
  }

  // ---- What a channel reads ----

  /** A message of consistent length with a known priority. */
  predicate WellFormed(m: seq<Byte>) {
    |m| >= 12 && |m| == 12 + Big16(m, 8) + Big16(m, 10) && Big16(m, 2) in {0, 128, 256, 512, 1024}
  }

  /** A limit read from an unsigned 32-bit parameter, or none. */
  predicate ReadAs(limit: int, carried: bool, x: int) {
    if !carried then limit == -1 else limit == if x < 2147483648 then x else x - 4294967296
  }

  /** A text read from bytes: up to the first zero byte. */
  predicate ReadText(text: seq<Byte>, bytes: seq<Byte>) {
    text <= bytes && 0 !in text && (|text| < |bytes| ==> bytes[|text|] == 0)
  }

  /** Exactly the well-formed messages are accepted, and each field is read from where it
      lies: the order from the top bit of the channel type, the limit it speaks of from the
      reliability parameter, label and protocol from behind the header. */
  lemma ParsedFromWire(m: seq<Byte>)
    ensures Parse(m).Some? <==> WellFormed(m)
    ensures WellFormed(m) ==>
              var p := Parse(m).value;
              var labelEnd := 12 + Big16(m, 8);
              && (p.ordered <==> m[1] < 128)
              && ReadAs(p.maxRetransmits, m[1] == 0x01 || m[1] == 0x81, Big32(m, 4))
              && ReadAs(p.maxLifeTime, m[1] == 0x02 || m[1] == 0x82, Big32(m, 4))
              && p.priority == Big16(m, 2)
              && ReadText(p.labelText, m[12..labelEnd]) && ReadText(p.protocol, m[labelEnd..])
  {
    if |m| >= 12 {
      Read16(m, 2);
      Read32(m, 4);
      Read16(m, 8);
      Read16(m, 10);
    }
  }
}
