/**
 * The sending side of the OT extension used by TinyTables preprocessing.
 * The real transfer is run by a separate Java process whose command line
 * carries the encoded inputs; because a command line is bounded, inputs
 * longer than MAX_OTS are split and transferred batch by batch, in order.
 * Starting that process is modelled as an abstract event: the sender
 * records one `Launch` per batch it hands over.
 */
module OTExtension {
  import opened Wrappers
  import opened OT

  /** OTExtensionConfig.MAX_OTS: the most OTs handed to one external process. */
  const MAX_OTS: nat := 10000

  newtype byte = x: int | 0 <= x < 256

  /** Encoding.encodeBoolean: 0x00 is false and 0x01 is true. */
  function EncodeBoolean(b: bool): byte
  {
    if b then 1 else 0
  }

  /** The inverse reading of a byte under the same format; other bytes mean nothing. */
  function DecodeBoolean(x: byte): Option<bool>
  {
    if x == 0 then Some(false) else if x == 1 then Some(true) else None
  }

  function EncodeBooleans(bs: seq<bool>): (bytes: seq<byte>)
    ensures |bytes| == |bs|
  {
    seq(|bs|, i requires 0 <= i < |bs| => EncodeBoolean(bs[i]))
  }

  function DecodeBooleans(bytes: seq<byte>): Option<seq<bool>>
    decreases |bytes|
  {
    if bytes == [] then Some([])
    else match (DecodeBoolean(bytes[0]), DecodeBooleans(bytes[1..]))
      case (Some(b), Some(rest)) => Some([b] + rest)
      case _ => None
  }

  /** A single byte decodes back to the bit it encodes, and only an encoding decodes. */
  lemma DecodeEncodeBoolean(b: bool, x: byte)
    ensures DecodeBoolean(EncodeBoolean(b)) == Some(b)
    ensures DecodeBoolean(x) == Some(b) <==> x == EncodeBoolean(b)
  {
  }

  /** The byte arrays passed to the external process decode back to the bits. */
  lemma {:induction false} DecodeEncodeBooleans(bs: seq<bool>)
    ensures DecodeBooleans(EncodeBooleans(bs)) == Some(bs)
    decreases |bs|
  {
    if bs != [] {
      DecodeEncodeBooleans(bs[1..]);
      assert EncodeBooleans(bs)[1..] == EncodeBooleans(bs[1..]);
      assert [bs[0]] + bs[1..] == bs;
    }
  }

  /** The first and second messages of a batch of OT inputs. */
  function FirstMessages(inputs: seq<OTInput>): (bs: seq<bool>)
    ensures |bs| == |inputs|
  {
    seq(|inputs|, i requires 0 <= i < |inputs| => inputs[i].x0)
  }

  function SecondMessages(inputs: seq<OTInput>): (bs: seq<bool>)
    ensures |bs| == |inputs|
  {
    seq(|inputs|, i requires 0 <= i < |inputs| => inputs[i].x1)
  }

  /**
   * The batches `transfer` hands to external processes, in order: a first
   * batch of exactly MAX_OTS inputs and then the batches of the rest, or the
   * whole input (possibly empty) when it is no longer than MAX_OTS.
   */
  function Batches<T>(s: seq<T>): (batches: seq<seq<T>>)
    ensures |batches| >= 1
    ensures batches[0] == s[..if |s| > MAX_OTS then MAX_OTS else |s|]
    decreases |s|
  {
    if |s| > MAX_OTS then [s[..MAX_OTS]] + Batches(s[MAX_OTS..]) else [s]
  }

  function Concat<T>(ss: seq<seq<T>>): seq<T>
    decreases |ss|
  {
    if ss == [] then [] else ss[0] + Concat(ss[1..])
  }

  /** The batches, put back together in order, are exactly the inputs. */
  lemma {:induction false} ConcatBatches<T>(s: seq<T>)
    ensures Concat(Batches(s)) == s
    decreases |s|
  {
    if |s| > MAX_OTS {
      ConcatBatches(s[MAX_OTS..]);
      var b := Batches(s);
      assert b[1..] == Batches(s[MAX_OTS..]);
      assert s[..MAX_OTS] + s[MAX_OTS..] == s;
    }
  }

  /**
   * No batch is longer than MAX_OTS, every batch but the last has exactly
   * MAX_OTS inputs, and only an empty input gives an empty batch.
   */
  lemma {:induction false} BatchSizes<T>(s: seq<T>)
    ensures |Batches(s)| >= 1
    ensures forall i :: 0 <= i < |Batches(s)| ==> |Batches(s)[i]| <= MAX_OTS
    ensures forall i :: 0 <= i < |Batches(s)| - 1 ==> |Batches(s)[i]| == MAX_OTS
    ensures |s| > 0 ==> forall i :: 0 <= i < |Batches(s)| ==> |Batches(s)[i]| > 0
    decreases |s|
  {
    if |s| > MAX_OTS {
      BatchSizes(s[MAX_OTS..]);
      var b := Batches(s);
      assert b[1..] == Batches(s[MAX_OTS..]);
      forall i | 1 <= i < |b|
        ensures b[i] == Batches(s[MAX_OTS..])[i - 1]
      {
      }
    }
  }

  /** An input no longer than MAX_OTS, the empty one included, goes out as one batch. */
  lemma SmallInputIsOneBatch<T>(s: seq<T>)
    requires |s| <= MAX_OTS
    ensures Batches(s) == [s]
  {
  }

  /** The number of batches is the input length divided by MAX_OTS, rounded up, and at least one. */
  lemma {:induction false} BatchCount<T>(s: seq<T>)
    ensures |Batches(s)| == if |s| == 0 then 1 else (|s| + MAX_OTS - 1) / MAX_OTS
    decreases |s|
  {
    if |s| > MAX_OTS {
      BatchCount(s[MAX_OTS..]);
    }
  }

  /** One start of the external sender process, with the two encoded message arrays. */
  datatype Launch = Launch(host: string, port: int, input0: seq<byte>, input1: seq<byte>)

  function LaunchFor(host: string, port: int, batch: seq<OTInput>): Launch
  {
    Launch(host, port, EncodeBooleans(FirstMessages(batch)), EncodeBooleans(SecondMessages(batch)))
  }

  function LaunchesFor(host: string, port: int, batches: seq<seq<OTInput>>): (ls: seq<Launch>)
    ensures |ls| == |batches|
  {
    seq(|batches|, i requires 0 <= i < |batches| => LaunchFor(host, port, batches[i]))
  }

  /**
   * The per-batch encoding loop: fills `input0` and `input1` with one byte per
   * input, the encoding of its first and of its second message.
   */
  method EncodeInputs(inputs: seq<OTInput>) returns (input0: array<byte>, input1: array<byte>)
    ensures input0.Length == |inputs| && input1.Length == |inputs|
    ensures input0[..] == EncodeBooleans(FirstMessages(inputs))
    ensures input1[..] == EncodeBooleans(SecondMessages(inputs))
  {
    input0 := new byte[|inputs|];
    input1 := new byte[|inputs|];
    for i := 0 to |inputs|
      invariant forall k :: 0 <= k < i ==> input0[k] == EncodeBoolean(inputs[k].x0)
      invariant forall k :: 0 <= k < i ==> input1[k] == EncodeBoolean(inputs[k].x1)
    {
      input0[i] := EncodeBoolean(inputs[i].x0);
      input1[i] := EncodeBoolean(inputs[i].x1);
    }
  }

  /** Thrown by the in-process transfer, which is not implemented. */
  datatype UnsupportedOperationException = UnsupportedOperationException(message: string)

  class OTExtensionSender {
    /** The address of the receiving party's OT process. */
    const host: string
    const port: int
    /** Every external transfer started so far, oldest first. */
    var launches: seq<Launch>

    constructor (host: string, port: int)
      ensures this.host == host && this.port == port && launches == []
    {
      this.host := host;
      this.port := port;
      launches := [];
    }

    /** `send`: transfers all inputs, batch by batch, in separate processes. */
    method Send(inputs: seq<OTInput>)
      modifies this
      ensures launches == old(launches) + LaunchesFor(host, port, Batches(inputs))
    {
      var _ := TransferDefault(inputs);
    }

    /** `transfer(inputs)`: the separate-process transfer, which never reaches the unsupported branch. */
    method TransferDefault(inputs: seq<OTInput>) returns (outcome: Result<(), UnsupportedOperationException>)
      modifies this
      ensures outcome.Success?
      ensures launches == old(launches) + LaunchesFor(host, port, Batches(inputs))
      decreases |inputs|, 1
    {
      outcome := Transfer(inputs, true);
    }

    /**
     * `transfer(inputs, seperateProcess)`: splits at MAX_OTS when running in
     * separate processes; otherwise encodes the batch and fails, since the
     * in-process transfer does not exist.
     */
    method Transfer(inputs: seq<OTInput>, separateProcess: bool)
      returns (outcome: Result<(), UnsupportedOperationException>)
      modifies this
      ensures outcome.Success? <==> separateProcess
      ensures separateProcess ==> launches == old(launches) + LaunchesFor(host, port, Batches(inputs))
      ensures !separateProcess ==> launches == old(launches)
      decreases |inputs|, 0
    {
      if separateProcess && |inputs| > MAX_OTS {
        var first, rest := inputs[..MAX_OTS], inputs[MAX_OTS..];
        outcome := TransferDefault(first);
        outcome := TransferDefault(rest);
        assert Batches(first) == [first];
        assert Batches(inputs) == [first] + Batches(rest);
        assert LaunchesFor(host, port, Batches(inputs))
            == LaunchesFor(host, port, [first]) + LaunchesFor(host, port, Batches(rest));
      } else {
        var input0, input1 := EncodeInputs(inputs);
        if separateProcess {
          launches := launches + [Launch(host, port, input0[..], input1[..])];
          outcome := Success(());
        } else {
          outcome := Failure(UnsupportedOperationException("Not implemented yet"));
        }
      }
    }
  }
}
