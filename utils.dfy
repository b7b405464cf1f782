/**
 * The small helpers of anyrun/src/utils.rs that decide something: how a
 * socket message is read back as text, how an icon string is shown, and
 * whether anything has to happen after the window closes.
 */
module Utils {
  import opened Base
  import opened Paths
  import opened Utf8
  import opened Plugins

  // ---------------------------------------------------------------------
  // read_from_stream

  const NUL: char := 0 as char

  /** How many NUL characters `s` starts with. */
  function LeadingNuls(s: string): (n: nat)
    ensures n <= |s|
    ensures forall k :: 0 <= k < n ==> s[k] == NUL
    ensures n < |s| ==> s[n] != NUL
  {
    if s == [] || s[0] != NUL then 0 else 1 + LeadingNuls(s[1..])
  }

  /** How many NUL characters `s` ends with. */
  function TrailingNuls(s: string): (n: nat)
    ensures n <= |s|
    ensures forall k :: |s| - n <= k < |s| ==> s[k] == NUL
    ensures n < |s| ==> s[|s| - n - 1] != NUL
  {
    if s == [] || s[|s| - 1] != NUL then 0 else 1 + TrailingNuls(s[..|s| - 1])
  }

  /**
   * `str::trim_matches(char::from(0))`: `s` without the NULs at its two ends.
   * What is left is the run of `s` that starts after the leading NULs and
   * ends before the trailing ones; interior NULs are kept, in order.
   */
  function TrimNuls(s: string): (r: string)
    ensures LeadingNuls(s) + |r| <= |s|
    ensures r == s[LeadingNuls(s)..LeadingNuls(s) + |r|]
    ensures forall k :: LeadingNuls(s) + |r| <= k < |s| ==> s[k] == NUL
    ensures |r| > 0 ==> r[0] != NUL && r[|r| - 1] != NUL
  {
    var i := LeadingNuls(s);
    var rest := s[i..];
    var r := rest[..|rest| - TrailingNuls(rest)];
    assert forall k :: i + |r| <= k < |s| ==> s[k] == rest[k - i];
    r
  }

  /**
   * The buffer after `stream.read(&mut buf)`: the zeroed array of
   * `bufSize` bytes with the bytes the read delivered at its front; a read
   * delivers at most `bufSize` bytes.
   */
  function ReadBuffer(received: seq<byte>, bufSize: nat): (buf: seq<byte>)
    ensures |buf| == bufSize
    ensures forall k :: 0 <= k < |buf| ==> buf[k] == if k < |received| then received[k] else 0
  {
    var n := if |received| < bufSize then |received| else bufSize;
    received[..n] + Zeros(bufSize - n)
  }

  function Zeros(n: nat): (z: seq<byte>)
    ensures |z| == n && forall k :: 0 <= k < n ==> z[k] == 0
  {
    seq(n, _ => 0)
  }

  function Nuls(n: nat): (z: string)
    ensures |z| == n && forall k :: 0 <= k < n ==> z[k] == NUL
  {
    seq(n, _ => NUL)
  }

  /** `read_from_stream` panics with "Can't get string from bytes array" on malformed UTF-8. */
  datatype ReadError = InvalidUtf8

  /**
   * `read_from_stream`: the whole buffer decoded as UTF-8, then trimmed of
   * NULs at both ends.
   */
  function ReadFromStream(received: seq<byte>, bufSize: nat): (r: Result<string, ReadError>)
    ensures r.Err? <==> Decode(ReadBuffer(received, bufSize)).None?
    ensures r.Ok? ==> r.value == TrimNuls(Decode(ReadBuffer(received, bufSize)).value)
    ensures r.Ok? ==> EncodedLength(r.value) <= bufSize
    ensures r.Ok? && |r.value| > 0 ==> r.value[0] != NUL && r.value[|r.value| - 1] != NUL
  {
    match Decode(ReadBuffer(received, bufSize))
    case None => Err(InvalidUtf8)
    case Some(text) =>
      var trimmed := TrimNuls(text);
      EncodedLengthSlice(text, LeadingNuls(text), LeadingNuls(text) + |trimmed|);
      Ok(trimmed)
  }

  /**
   * A message that fits the buffer and has no NUL at either end reads back
   * as itself.
   */
  lemma ShortMessageReadsBack(message: string, bytes: seq<byte>, bufSize: nat)
    requires Decode(bytes) == Some(message)
    requires |bytes| <= bufSize
    requires |message| > 0 ==> message[0] != NUL && message[|message| - 1] != NUL
    ensures ReadFromStream(bytes, bufSize) == Ok(message)
  {
    var pad := bufSize - |bytes|;
    var buf := ReadBuffer(bytes, bufSize);
    assert bytes[..|bytes|] == bytes;
    assert buf == bytes + Zeros(pad);
    DecodeZeros(pad);
    DecodeConcat(bytes, Zeros(pad));
    assert Decode(buf) == Some(message + Nuls(pad));
    TrimNulsOfPadded(message, pad);
  }

  /**
   * The read fails exactly when the buffer is the UTF-8 encoding of no
   * string; otherwise its result is the trimmed text the buffer encodes.
   */
  lemma ReadFailsIffNotEncoded(received: seq<byte>, bufSize: nat)
    ensures ReadFromStream(received, bufSize).Err? <==>
            forall s :: EncodeString(s) != ReadBuffer(received, bufSize)
    ensures forall s :: EncodeString(s) == ReadBuffer(received, bufSize) ==>
            ReadFromStream(received, bufSize) == Ok(TrimNuls(s))
  {
    var buf := ReadBuffer(received, bufSize);
    forall s | EncodeString(s) == buf ensures Decode(buf) == Some(s) {
      DecodeIffEncode(buf, s);
    }
    if Decode(buf).Some? {
      EncodeOfDecode(buf);
    }
  }

  /** A message whose encoding fits the buffer and has no NUL at either end is read back exactly. */
  lemma MessageReadsBack(message: string, bufSize: nat)
    requires EncodedLength(message) <= bufSize
    requires |message| > 0 ==> message[0] != NUL && message[|message| - 1] != NUL
    ensures ReadFromStream(EncodeString(message), bufSize) == Ok(message)
  {
    DecodeOfEncode(message);
    ShortMessageReadsBack(message, EncodeString(message), bufSize);
  }

  /** A run of zero bytes decodes to as many NULs. */
  lemma {:induction false} DecodeZeros(n: nat)
    ensures Decode(Zeros(n)) == Some(Nuls(n))
  {
    if n > 0 {
      var z := Zeros(n);
      assert DecodeFirst(z) == Some((NUL, 1));
      DecodeStep(z, NUL, 1);
      assert z[1..] == Zeros(n - 1);
      DecodeZeros(n - 1);
      assert Nuls(n) == [NUL] + Nuls(n - 1);
    }
  }

  /** Trimming a message padded with NULs gives back the message when its ends are not NUL. */
  lemma TrimNulsOfPadded(message: string, pad: nat)
    requires |message| > 0 ==> message[0] != NUL && message[|message| - 1] != NUL
    ensures TrimNuls(message + Nuls(pad)) == message
  {
    var s := message + Nuls(pad);
    var r := TrimNuls(s);
    var i := LeadingNuls(s);
    assert forall k :: |message| <= k < |s| ==> s[k] == NUL;
    if |message| > 0 {
      assert s[0] == message[0];
      assert s[|message| - 1] == message[|message| - 1];
      assert i == 0;
      assert |r| > 0 ==> s[|r| - 1] == r[|r| - 1];
      assert r == s[..|r|];
      assert s[..|message|] == message;
    }
  }

  // ---------------------------------------------------------------------
  // build_image

  /** Where a `gtk::Image` takes its picture from. */
  datatype ImageSource = File(path: string) | IconName(name: string)

  /** `build_image`: an absolute icon path is loaded as a file, anything else is a themed icon name. */
  function ImageSourceOf(icon: string): (r: ImageSource)
    ensures r.File? <==> IsAbsolute(icon)
    ensures r == File(icon) || r == IconName(icon)
  {
    if IsAbsolute(icon) then File(icon) else IconName(icon)
  }

  // ---------------------------------------------------------------------
  // handle_post_run_action

  /**
   * `handle_post_run_action`: the bytes a forked child serves to the
   * clipboard when the pending action is `Copy`; no other action does anything.
   */
  method HandlePostRunAction(runtime: RuntimeState) returns (served: Option<seq<byte>>)
    ensures served.Some? <==> runtime.postRunAction.Copy?
    ensures served.Some? ==> served.value == runtime.postRunAction.bytes
  {
    if runtime.postRunAction.Copy? {
      served := Some(runtime.postRunAction.bytes);
    } else {
      served := None;
    }
  }
}
