/**
 * The serial transport: the byte stream the device sends, the command lines
 * the host writes, and how one reply is delimited by its "OK\r" terminator.
 */
module Framing {
  import opened Outcomes

  newtype byte = x: int | 0 <= x < 256

  const NUL: byte := 0
  const CR: byte := 13
  /** The terminator every reply ends with: 'O', 'K', carriage return. */
  const OK_CR: seq<byte> := [79, 75, 13]

  predicate NoNul(s: seq<byte>) { forall i :: 0 <= i < |s| ==> s[i] != NUL }

  /** After n one-byte reads of inp, the last three bytes read are "OK\r". */
  predicate EndsWithOk(inp: seq<byte>, n: nat)
  {
    3 <= n <= |inp| && inp[n - 3..n] == OK_CR
  }

  /** No prefix of s ends with "OK\r": a bare carriage return may occur, the terminator may not. */
  predicate NoTerminator(s: seq<byte>)
  {
    forall m :: 3 <= m <= |s| ==> !EndsWithOk(s, m)
  }

  /**
   * The reader stops at its n-th byte: that byte is NUL, or it is not ASCII
   * (decoding it alone as UTF-8 fails), or it completes "OK\r".
   */
  predicate StopsAt(inp: seq<byte>, n: nat)
  {
    1 <= n <= |inp| && (inp[n - 1] == NUL || inp[n - 1] >= 128 || EndsWithOk(inp, n))
  }

  /** bytes[:-4]: the terminator and the one padding byte before it are dropped. */
  function Payload(b: seq<byte>): (p: seq<byte>)
    ensures |b| >= 4 ==> b == p + b[|b| - 4..]
    ensures |b| < 4 ==> p == []
  {
    if |b| >= 4 then b[..|b| - 4] else []
  }

  /**
   * How one read of a reply ends, and how many bytes of the stream it
   * consumed: the reply, a timeout, or a byte the per-byte decoding refuses.
   */
  datatype Frame = Received(payload: seq<byte>, used: nat) | TimedOut(used: nat) | Garbled(used: nat)

  /** Reading on after the first k bytes of the stream have been read. */
  function ReadFrom(inp: seq<byte>, k: nat): (f: Frame)
    requires k <= |inp|
    ensures k <= f.used <= |inp|
    decreases |inp| - k
  {
    if k == |inp| then TimedOut(k)
    else if inp[k] >= 128 then Garbled(k + 1)
    else if inp[k] == NUL then TimedOut(k + 1)
    else if EndsWithOk(inp, k + 1) then Received(Payload(inp[..k + 1]), k + 1)
    else ReadFrom(inp, k + 1)
  }

  /** The reader reads on past every byte before the one it stops at. */
  lemma {:induction false} ReadFromStopsFirst(inp: seq<byte>, k: nat)
    requires k <= |inp|
    ensures forall m :: k < m < ReadFrom(inp, k).used ==> !StopsAt(inp, m)
    decreases |inp| - k
  {
    if k < |inp| && inp[k] != NUL && inp[k] < 128 && !EndsWithOk(inp, k + 1) {
      ReadFromStopsFirst(inp, k + 1);
      assert !StopsAt(inp, k + 1);
    }
  }

  /**
   * Where the reader stops decides how the read ends: it delivers the bytes
   * before the terminator less the padding byte, or fails on a byte it
   * cannot decode, or times out on a NUL, or when the stream runs dry.
   */
  lemma {:induction false} ReadFromEnds(inp: seq<byte>, k: nat)
    requires k <= |inp|
    ensures var f := ReadFrom(inp, k);
            && (f.Received? ==> k < f.used && EndsWithOk(inp, f.used))
            && (f.Received? ==> f.payload == Payload(inp[..f.used]))
            && (f.Garbled? ==> k < f.used && inp[f.used - 1] >= 128)
            && (f.TimedOut? ==> (f.used == |inp| && (f.used == k || !StopsAt(inp, f.used))) ||
                                (k < f.used && inp[f.used - 1] == NUL))
    decreases |inp| - k
  {
    if k < |inp| && inp[k] != NUL && inp[k] < 128 && !EndsWithOk(inp, k + 1) {
      ReadFromEnds(inp, k + 1);
      assert !StopsAt(inp, k + 1);
    }
  }

  /** Every byte a delivered reply was read from is ASCII. */
  lemma {:induction false} ReadFromAscii(inp: seq<byte>, k: nat)
    requires k <= |inp|
    ensures ReadFrom(inp, k).Received? ==> forall i :: k <= i < ReadFrom(inp, k).used ==> inp[i] < 128
    decreases |inp| - k
  {
    if k < |inp| && inp[k] != NUL && inp[k] < 128 && !EndsWithOk(inp, k + 1) {
      assert ReadFrom(inp, k) == ReadFrom(inp, k + 1);
      ReadFromAscii(inp, k + 1);
    }
  }

  /**
   * The byte-level outcome of one exchange for a device that will send inp,
   * read from its first byte.
   */
  function ReadFrame(inp: seq<byte>): (f: Frame)
    ensures f.used <= |inp|
  {
    ReadFrom(inp, 0)
  }

  predicate IsAscii(b: seq<byte>) { forall i :: 0 <= i < |b| ==> b[i] < 128 }

  /** bytes.decode() restricted to ASCII: each byte becomes the character with its code. */
  function Decode(b: seq<byte>): (r: Result<string>)
    ensures r.Ok? <==> IsAscii(b)
    ensures r.Ok? ==> |r.value| == |b| && forall i :: 0 <= i < |b| ==> r.value[i] as int == b[i] as int
    ensures r.Err? ==> r.error == Undecodable
  {
    if IsAscii(b) then Ok(seq(|b|, i requires 0 <= i < |b| => (b[i] as int) as char)) else Err(Undecodable)
  }

  /** str.encode() of an ASCII string. */
  function Encode(s: string): (b: seq<byte>)
    requires forall i :: 0 <= i < |s| ==> s[i] as int < 128
    ensures |b| == |s| && IsAscii(b)
    ensures forall i :: 0 <= i < |s| ==> b[i] as int == s[i] as int
  {
    seq(|s|, i requires 0 <= i < |s| => s[i] as int as byte)
  }

  lemma DecodeEncode(s: string)
    requires forall i :: 0 <= i < |s| ==> s[i] as int < 128
    ensures Decode(Encode(s)) == Ok(s)
  {
    assert Decode(Encode(s)).value == s;
  }

  /** A delivered reply is ASCII: every byte of it has been decoded on its own. */
  lemma ReceivedAscii(inp: seq<byte>)
    ensures ReadFrame(inp).Received? ==> IsAscii(ReadFrame(inp).payload)
  {
    ReadFromAscii(inp, 0);
    ReadFromEnds(inp, 0);
    var f := ReadFrame(inp);
    if f.Received? {
      forall i | 0 <= i < |f.payload|
        ensures f.payload[i] < 128
      {
        assert f.payload[i] == inp[..f.used][i];
      }
    }
  }

  /**
   * What one exchange returns for a device that will send inp. Once each
   * byte has been decoded on its own, the reply is ASCII and decoding it
   * as a whole cannot fail.
   */
  function Reply(inp: seq<byte>): (r: Result<string>)
    ensures r.Err? ==> r.error == Timeout || r.error == Undecodable
    ensures r.Err? && r.error == Timeout <==> ReadFrame(inp).TimedOut?
    ensures r.Err? && r.error == Undecodable <==> ReadFrame(inp).Garbled?
  {
    ReceivedAscii(inp);
    match ReadFrame(inp)
    case TimedOut(_) => Err(Timeout)
    case Garbled(_) => Err(Undecodable)
    case Received(p, _) => Decode(p)
  }

  /** What is left of the stream after one exchange. */
  function Rest(inp: seq<byte>): (r: seq<byte>)
    ensures |r| <= |inp| && r == inp[|inp| - |r|..]
  {
    inp[ReadFrame(inp).used..]
  }

  /** One step of the reader that has read k bytes without stopping: the next byte decides or it reads on. */
  lemma ReadStep(inp: seq<byte>, k: nat)
    requires k <= |inp| && ReadFrom(inp, k) == ReadFrame(inp)
    ensures k == |inp| ==> Reply(inp) == Err(Timeout) && Rest(inp) == []
    ensures k < |inp| && inp[k] >= 128 ==> Reply(inp) == Err(Undecodable) && Rest(inp) == inp[k + 1..]
    ensures k < |inp| && inp[k] == NUL ==> Reply(inp) == Err(Timeout) && Rest(inp) == inp[k + 1..]
    ensures k < |inp| && inp[k] != NUL && inp[k] < 128 && EndsWithOk(inp, k + 1) ==>
              Reply(inp) == Decode(Payload(inp[..k + 1])) && Rest(inp) == inp[k + 1..]
    ensures k < |inp| && inp[k] != NUL && inp[k] < 128 && !EndsWithOk(inp, k + 1) ==>
              ReadFrom(inp, k + 1) == ReadFrame(inp)
  {
  }

  /** Taking byte k of the stream: what is left of it, and what has been read with it. */
  lemma TakeByte(inp: seq<byte>, k: nat)
    requires k < |inp|
    ensures inp[k..][0] == inp[k] && inp[k..][1..] == inp[k + 1..]
    ensures inp[..k] + [inp[k]] == inp[..k + 1]
    ensures 3 <= k + 1 ==> inp[..k + 1][k - 2..] == inp[k - 2..k + 1]
  {
  }

  /** The first stop of the reader decides the outcome: a byte that is not ASCII fails, a NUL times out, "OK\r" delivers. */
  lemma FirstStopDecides(inp: seq<byte>, n: nat)
    requires StopsAt(inp, n)
    requires forall m :: 1 <= m < n ==> !StopsAt(inp, m)
    ensures ReadFrame(inp) == if inp[n - 1] >= 128 then Garbled(n)
                              else if inp[n - 1] == NUL then TimedOut(n)
                              else Received(Payload(inp[..n]), n)
  {
    ReadUntilStop(inp, 0, n);
  }

  /** Reading on from any byte before the first stop ends at that stop. */
  lemma {:induction false} ReadUntilStop(inp: seq<byte>, k: nat, n: nat)
    requires k < n && StopsAt(inp, n)
    requires forall m :: 1 <= m < n ==> !StopsAt(inp, m)
    ensures ReadFrom(inp, k) == if inp[n - 1] >= 128 then Garbled(n)
                                else if inp[n - 1] == NUL then TimedOut(n)
                                else Received(Payload(inp[..n]), n)
    decreases n - k
  {
    if k + 1 < n {
      assert !StopsAt(inp, k + 1);
      ReadUntilStop(inp, k + 1, n);
    }
  }

  /**
   * A reply made of a payload, one padding byte and "OK\r" is read up to its
   * terminator and no further, and yields exactly the payload: the last four
   * bytes are stripped. The payload may hold carriage returns; only a
   * complete "OK\r" ends the read.
   */
  lemma FramedReply(p: seq<byte>, pad: byte, rest: seq<byte>)
    requires NoNul(p + [pad]) && IsAscii(p + [pad]) && NoTerminator(p + [pad])
    ensures ReadFrame(p + [pad] + OK_CR + rest) == Received(p, |p| + 4)
  {
    var q := p + [pad];
    var inp := q + OK_CR + rest;
    var n := |p| + 4;
    assert inp[n - 3..n] == OK_CR;
    forall m | 1 <= m < n
      ensures !StopsAt(inp, m)
    {
      if m <= |q| {
        assert inp[m - 1] == q[m - 1];
        if 3 <= m {
          assert inp[m - 3..m] == q[m - 3..m];
          assert !EndsWithOk(q, m);
        }
      } else {
        assert inp[m - 1] == OK_CR[m - 1 - |q|];
        if 3 <= m {
          assert inp[m - 3..m][2] == inp[m - 1];
        }
      }
    }
    assert inp[..n][..n - 4] == p;
    FirstStopDecides(inp, n);
  }

  /** A NUL byte before any terminator makes the exchange time out right there. */
  lemma NulTimesOut(pre: seq<byte>, rest: seq<byte>)
    requires NoNul(pre) && IsAscii(pre) && NoTerminator(pre)
    ensures ReadFrame(pre + [NUL] + rest) == TimedOut(|pre| + 1)
  {
    var inp := pre + [NUL] + rest;
    forall m | 1 <= m <= |pre|
      ensures !StopsAt(inp, m)
    {
      assert inp[..|pre|] == pre;
      if 3 <= m {
        assert inp[m - 3..m] == pre[m - 3..m];
        assert !EndsWithOk(pre, m);
      }
    }
    FirstStopDecides(inp, |pre| + 1);
  }

  /**
   * A byte that is not ASCII, before any NUL or terminator, fails the
   * exchange as soon as it is read: decoding it on its own raises.
   */
  lemma GarbledByteFails(pre: seq<byte>, x: byte, rest: seq<byte>)
    requires NoNul(pre) && IsAscii(pre) && NoTerminator(pre) && 128 <= x
    ensures Reply(pre + [x] + rest) == Err(Undecodable)
    ensures Rest(pre + [x] + rest) == rest
  {
    var inp := pre + [x] + rest;
    forall m | 1 <= m <= |pre|
      ensures !StopsAt(inp, m)
    {
      assert inp[..|pre|] == pre;
      if 3 <= m {
        assert inp[m - 3..m] == pre[m - 3..m];
        assert !EndsWithOk(pre, m);
      }
    }
    FirstStopDecides(inp, |pre| + 1);
    assert inp[|pre| + 1..] == rest;
  }

  /**
   * An ASCII stream with no NUL and no terminator, carriage returns or not,
   * is drained entirely, then the read times out.
   */
  lemma SilenceTimesOut(inp: seq<byte>)
    requires NoNul(inp) && IsAscii(inp) && NoTerminator(inp)
    ensures ReadFrame(inp) == TimedOut(|inp|)
  {
    ReadFromEnds(inp, 0);
  }

  /**
   * End to end: an ASCII payload sent with its padding and terminator is
   * what the exchange returns, carriage returns in it included.
   */
  lemma ReplyOfText(s: string, pad: byte, rest: seq<byte>)
    requires forall i :: 0 <= i < |s| ==> 0 < s[i] as int < 128
    requires pad != NUL && pad < 128 && NoTerminator(Encode(s) + [pad])
    ensures Reply(Encode(s) + [pad] + OK_CR + rest) == Ok(s)
    ensures Rest(Encode(s) + [pad] + OK_CR + rest) == rest
  {
    var p := Encode(s);
    assert forall i :: 0 <= i < |p| ==> p[i] as int == s[i] as int;
    FramedReply(p, pad, rest);
    DecodeEncode(s);
    assert (p + [pad] + OK_CR + rest)[|p| + 4..] == rest;
  }

  /** A bare "OK\r" acknowledgement is an exchange that returns the empty text and consumes just those three bytes. */
  lemma AckReply(rest: seq<byte>)
    ensures Reply(OK_CR + rest) == Ok("")
    ensures Rest(OK_CR + rest) == rest
  {
    var inp := OK_CR + rest;
    assert inp[..3] == OK_CR && inp[0..3] == OK_CR;
    assert !StopsAt(inp, 1) && !StopsAt(inp, 2);
    FirstStopDecides(inp, 3);
    assert Decode([]).value == "";
  }

  /**
   * The serial port: the bytes the device has still to send, in order, and
   * every command line written so far.
   */
  class SerialLine {
    var incoming: seq<byte>
    var written: seq<string>
    var isOpen: bool

    constructor (incoming: seq<byte>)
      ensures this.incoming == incoming && written == [] && isOpen
    {
      this.incoming := incoming;
      written := [];
      isOpen := true;
    }

    method Write(line: string)
      modifies this
      ensures written == old(written) + [line]
      ensures incoming == old(incoming) && isOpen == old(isOpen)
    {
      written := written + [line];
    }

    /** read(1): the next byte, or nothing once the device has stopped sending. */
    method Read1() returns (b: seq<byte>)
      modifies this
      ensures old(incoming) == [] ==> b == [] && incoming == []
      ensures old(incoming) != [] ==> b == [old(incoming)[0]] && incoming == old(incoming)[1..]
      ensures written == old(written) && isOpen == old(isOpen)
    {
      if incoming == [] {
        b := [];
      } else {
        b := [incoming[0]];
        incoming := incoming[1..];
      }
    }

    method Close()
      modifies this
      ensures !isOpen
      ensures incoming == old(incoming) && written == old(written)
    {
      isOpen := false;
    }
  }
}
