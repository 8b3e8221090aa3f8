/**
 The sample client's labelling of files: on release it rewrites a text file as a 256-byte header followed by
 the transform of the whole contents, through a temporary file; on open it tells labelled files from others.
*/
module Label {
  import opened Bytes

  const ENCRYPT_FILE_HEADER_SIZE: nat := 256
  const BUFFER_SIZE: nat := 1024

  /** 0x44414554 in little-endian order. */
  const FLAG: seq<byte> := [0x54, 0x45, 0x41, 0x44]

  datatype OpenResult = Init | Encrypt | Decrypt

  /** How the file calls of one release turn out. */
  datatype Calls = Calls(
    source: bool,    // the file can be opened
    target: bool,    // the temporary file can be opened
    header: nat,     // bytes that reading the header delivers, 0 if it fails
    delivered: nat,  // bytes that the reads of the loop deliver before the end of the file or an error
    renamed: bool)   // the temporary file can be renamed

  predicate Possible(calls: Calls, content: seq<byte>) {
    calls.header <= Min(ENCRYPT_FILE_HEADER_SIZE, |content|) && calls.delivered <= |content|
  }

  /** No call fails or falls short. */
  predicate AllSucceed(calls: Calls, content: seq<byte>) {
    && calls.source && calls.target && calls.renamed
    && calls.header == Min(ENCRYPT_FILE_HEADER_SIZE, |content|) && calls.delivered == |content|
  }

  predicate Contains(text: string, part: string) {
    exists i :: 0 <= i <= |text| - |part| && HasAt(text, part, i)
  }

  predicate HasAt(text: string, part: string, i: nat)
    requires i + |part| <= |text|
  {
    text[i..i + |part|] == part
  }

  /** The text has the part somewhere in it. */
  lemma ContainsIff(text: string, part: string)
    ensures Contains(text, part) <==> exists before, after :: text == before + part + after
  {
    if Contains(text, part) {
      var i :| 0 <= i <= |text| - |part| && HasAt(text, part, i);
      assert text == text[..i] + part + text[i + |part|..];
    }
    if before, after :| text == before + part + after {
      assert HasAt(text, part, |before|);
    }
  }

  /** The flag is the word the programs compare with. */
  lemma FlagIsWord()
    ensures FromLe(FLAG) == 0x44414554
  {
    WordIs(FLAG);
  }

  /** The header buffer after reading n bytes into it. */
  function HeaderBuffer(content: seq<byte>, n: nat): (h: seq<byte>)
    requires n <= |content| && n <= ENCRYPT_FILE_HEADER_SIZE
    ensures |h| == ENCRYPT_FILE_HEADER_SIZE
  {
    content[..n] + seq(ENCRYPT_FILE_HEADER_SIZE - n, _ => 0)
  }

  predicate Flagged(header: seq<byte>) {
    |header| >= 4 && header[..4] == FLAG
  }

  predicate Labelled(content: seq<byte>) {
    |content| >= ENCRYPT_FILE_HEADER_SIZE && Flagged(content)
  }

  /** The header that is written: the flag over the first bytes of the original. */
  function NewHeader(content: seq<byte>, n: nat): (h: seq<byte>)
    requires n <= |content| && n <= ENCRYPT_FILE_HEADER_SIZE
    ensures |h| == ENCRYPT_FILE_HEADER_SIZE && Flagged(h)
  {
    FLAG + HeaderBuffer(content, n)[4..]
  }

  /** What a write at a position leaves: the temporary file is not truncated when it is opened. */
  function Overwrite(file: seq<byte>, at: nat, bytes: seq<byte>): seq<byte>
    requires at <= |file|
  {
    file[..at] + bytes + file[Min(|file|, at + |bytes|)..]
  }

  /** Whether this release rewrites the file. */
  predicate Rewrites(path: string, content: seq<byte>, calls: Calls)
    requires Possible(calls, content)
  {
    && Contains(path, ".txt") && calls.source && calls.target
    && !(calls.header == ENCRYPT_FILE_HEADER_SIZE && Flagged(content))
  }

  /** The temporary file after a rewrite, given what it held before. */
  function Rewritten(content: seq<byte>, calls: Calls, stale: seq<byte>): seq<byte>
    requires Possible(calls, content)
  {
    Overwrite(stale, 0, NewHeader(content, calls.header) + XorAll(content[..calls.delivered]))
  }

  /** A file and its temporary file, empty when there is none. */
  class Disk {
    var file: seq<byte>
    var temp: seq<byte>

    constructor (file: seq<byte>, temp: seq<byte>)
      ensures this.file == file && this.temp == temp
    {
      this.file := file;
      this.temp := temp;
    }
  }

  /** The `release` callback. The reads deliver any number of bytes from 1 to 1024 each. */
  method Release(disk: Disk, path: string, calls: Calls)
    requires Possible(calls, disk.file)
    modifies disk
    ensures !Rewrites(path, old(disk.file), calls) ==> disk.file == old(disk.file) && disk.temp == old(disk.temp)
    ensures Rewrites(path, old(disk.file), calls) ==>
      var result := Rewritten(old(disk.file), calls, old(disk.temp));
      if calls.renamed then disk.file == result && disk.temp == []
      else disk.file == old(disk.file) && disk.temp == result
  {
    if !Contains(path, ".txt") || !calls.source {
      return;
    }
    var header := new byte[ENCRYPT_FILE_HEADER_SIZE](_ => 0);
    forall i | 0 <= i < calls.header {
      header[i] := disk.file[i];
    }
    assert header[..] == HeaderBuffer(disk.file, calls.header);
    if calls.header >= ENCRYPT_FILE_HEADER_SIZE && header[..4] == FLAG {
      return;
    }
    if !calls.target {
      return;
    }
    forall i | 0 <= i < 4 {
      header[i] := FLAG[i];
    }
    assert header[..] == NewHeader(disk.file, calls.header);
    Rewrite(disk, header[..], calls.delivered);
    if calls.renamed {
      disk.file := disk.temp;
      disk.temp := [];
    }
  }

  /** Write the header, then the transform of what the reads deliver, piece by piece. */
  method Rewrite(disk: Disk, header: seq<byte>, delivered: nat)
    requires |header| == ENCRYPT_FILE_HEADER_SIZE && delivered <= |disk.file|
    modifies disk
    ensures disk.file == old(disk.file)
    ensures disk.temp == Overwrite(old(disk.temp), 0, header + XorAll(disk.file[..delivered]))
  {
    ghost var stale, file := disk.temp, disk.file;
    disk.temp := Overwrite(disk.temp, 0, header);
    assert header + XorAll(file[..0]) == header;
    var buffer := new byte[BUFFER_SIZE](_ => 0);
    var done := 0;
    while done < delivered
      invariant disk.file == file && done <= delivered && fresh(buffer)
      invariant disk.temp == Overwrite(stale, 0, header + XorAll(file[..done]))
    {
      var n: nat :| 1 <= n <= BUFFER_SIZE && n <= delivered - done;
      forall i | 0 <= i < n {
        buffer[i] := disk.file[done + i];
      }
      assert buffer[..n] == file[done..done + n];
      XorInPlace(buffer, n);
      NextPiece(stale, header, file, done, n);
      disk.temp := Overwrite(disk.temp, ENCRYPT_FILE_HEADER_SIZE + done, buffer[..n]);
      done := done + n;
    }
  }

  lemma NextPiece(stale: seq<byte>, header: seq<byte>, file: seq<byte>, done: nat, n: nat)
    requires |header| == ENCRYPT_FILE_HEADER_SIZE && done + n <= |file|
    ensures var temp := Overwrite(stale, 0, header + XorAll(file[..done]));
      && ENCRYPT_FILE_HEADER_SIZE + done <= |temp|
      && Overwrite(temp, ENCRYPT_FILE_HEADER_SIZE + done, XorAll(file[done..done + n])) ==
         Overwrite(stale, 0, header + XorAll(file[..done + n]))
  {
    var written, piece := header + XorAll(file[..done]), XorAll(file[done..done + n]);
    WriteMore(stale, written, piece);
    XorAllAppend(file[..done], file[done..done + n]);
    assert file[..done] + file[done..done + n] == file[..done + n];
    assert written + piece == header + XorAll(file[..done + n]);
  }

  method XorInPlace(buffer: array<byte>, n: nat)
    requires n <= buffer.Length
    modifies buffer
    ensures buffer[..n] == XorAll(old(buffer[..n]))
  {
    for i := 0 to n
      invariant forall j :: 0 <= j < i ==> buffer[j] == Xor13(old(buffer[j]))
      invariant forall j :: i <= j < n ==> buffer[j] == old(buffer[j])
    {
      buffer[i] := Xor13(buffer[i]);
    }
  }

  /** Writing in pieces, one after the other, is writing all at once. */
  lemma WriteMore(stale: seq<byte>, written: seq<byte>, bytes: seq<byte>)
    ensures |written| <= |Overwrite(stale, 0, written)|
    ensures Overwrite(Overwrite(stale, 0, written), |written|, bytes) == Overwrite(stale, 0, written + bytes)
  {
  }

  /** The `open` callback: the file can be opened or not, and the header read delivers n bytes. */
  method Open(content: seq<byte>, found: bool, n: nat, processPath: string) returns (r: OpenResult)
    requires n <= |content| && n <= ENCRYPT_FILE_HEADER_SIZE
    ensures r == Init <==> !(found && n == ENCRYPT_FILE_HEADER_SIZE && Labelled(content))
    ensures r == Encrypt ==> Contains(processPath, "cat")
    ensures r == Decrypt ==> !Contains(processPath, "cat")
  {
    r := Init;
    if !found || n < ENCRYPT_FILE_HEADER_SIZE {
      return;
    }
    if HeaderBuffer(content, n)[..4] == FLAG {
      if Contains(processPath, "cat") { r := Encrypt; } else { r := Decrypt; }
    }
  }

  // ---------------------------------------------------------------- what the file is worth afterwards

  /** The contents behind the header, as the `read` callback shows them. */
  function Recovered(file: seq<byte>): seq<byte>
    requires |file| >= ENCRYPT_FILE_HEADER_SIZE
  {
    XorAll(file[ENCRYPT_FILE_HEADER_SIZE..])
  }

  /** A rewrite gives a labelled file, whatever happened to its reads. */
  lemma RewrittenIsLabelled(content: seq<byte>, calls: Calls, stale: seq<byte>)
    requires Possible(calls, content)
    ensures Labelled(Rewritten(content, calls, stale))
    ensures forall i :: 4 <= i < ENCRYPT_FILE_HEADER_SIZE ==>
              Rewritten(content, calls, stale)[i] == if i < calls.header then content[i] else 0
  {
    var h := NewHeader(content, calls.header);
    var r := Rewritten(content, calls, stale);
    assert r[..ENCRYPT_FILE_HEADER_SIZE] == h;
    assert r[..4] == h[..4];
    forall i | 4 <= i < ENCRYPT_FILE_HEADER_SIZE ensures r[i] == if i < calls.header then content[i] else 0 {
      assert r[i] == h[i] == HeaderBuffer(content, calls.header)[i];
    }
  }

  /** What a rewrite preserves: the part that was read, then whatever an old temporary file had beyond it. */
  lemma RecoveredContents(content: seq<byte>, calls: Calls, stale: seq<byte>)
    requires Possible(calls, content)
    ensures |Rewritten(content, calls, stale)| >= ENCRYPT_FILE_HEADER_SIZE
    ensures Recovered(Rewritten(content, calls, stale)) ==
      content[..calls.delivered] + XorAll(stale[Min(|stale|, ENCRYPT_FILE_HEADER_SIZE + calls.delivered)..])
  {
    var h := NewHeader(content, calls.header);
    var x := XorAll(content[..calls.delivered]);
    var tail := stale[Min(|stale|, ENCRYPT_FILE_HEADER_SIZE + calls.delivered)..];
    assert |h + x| == ENCRYPT_FILE_HEADER_SIZE + calls.delivered;
    assert Rewritten(content, calls, stale) == h + x + tail;
    assert (h + x + tail)[ENCRYPT_FILE_HEADER_SIZE..] == x + tail;
    XorAllAppend(x, tail);
    XorAllTwice(content[..calls.delivered]);
  }

  /** The original comes back exactly when what an old temporary file had beyond the part written stands for
    the part that was not read. */
  lemma RoundTrip(content: seq<byte>, calls: Calls, stale: seq<byte>)
    requires Possible(calls, content)
    ensures |Rewritten(content, calls, stale)| >= ENCRYPT_FILE_HEADER_SIZE
    ensures Recovered(Rewritten(content, calls, stale)) == content <==>
      XorAll(stale[Min(|stale|, ENCRYPT_FILE_HEADER_SIZE + calls.delivered)..]) == content[calls.delivered..]
  {
    RecoveredContents(content, calls, stale);
    var rest := XorAll(stale[Min(|stale|, ENCRYPT_FILE_HEADER_SIZE + calls.delivered)..]);
    assert content == content[..calls.delivered] + content[calls.delivered..];
    assert (content[..calls.delivered] + rest)[calls.delivered..] == rest;
  }

  /** So, if no longer temporary file was in the way, exactly when every byte was read; and if every byte was
    read, exactly when none was in the way. */
  lemma RoundTripCases(content: seq<byte>, calls: Calls, stale: seq<byte>)
    requires Possible(calls, content)
    ensures |Rewritten(content, calls, stale)| >= ENCRYPT_FILE_HEADER_SIZE
    ensures |stale| <= ENCRYPT_FILE_HEADER_SIZE + calls.delivered ==>
      (Recovered(Rewritten(content, calls, stale)) == content <==> calls.delivered == |content|)
    ensures calls.delivered == |content| ==>
      (Recovered(Rewritten(content, calls, stale)) == content <==> |stale| <= ENCRYPT_FILE_HEADER_SIZE + |content|)
  {
    RoundTrip(content, calls, stale);
  }

  /** Reads that fail at once do no harm when an earlier rewrite of the same contents only failed to be renamed:
    the temporary file already has them. */
  lemma LeftoverRestores(content: seq<byte>, first: Calls, second: Calls)
    requires Possible(first, content) && AllSucceed(first.(renamed := true), content)
    requires Possible(second, content)
    ensures var leftover := Rewritten(content, first, []);
      Recovered(Rewritten(content, second, leftover)) == content
  {
    var leftover := Rewritten(content, first, []);
    assert leftover == NewHeader(content, first.header) + XorAll(content);
    var tail := leftover[ENCRYPT_FILE_HEADER_SIZE + second.delivered..];
    assert tail == XorAll(content[second.delivered..]);
    XorAllTwice(content[second.delivered..]);
    RoundTrip(content, second, leftover);
  }

  /** After a rewrite, a release whose header read is whole leaves both files alone. */
  lemma SecondReleaseKeeps(path: string, content: seq<byte>, calls: Calls, stale: seq<byte>, again: Calls)
    requires Possible(calls, content)
    requires Possible(again, Rewritten(content, calls, stale)) && again.header == ENCRYPT_FILE_HEADER_SIZE
    ensures !Rewrites(path, Rewritten(content, calls, stale), again)
  {
    RewrittenIsLabelled(content, calls, stale);
  }

  /** When every call succeeds, `release` rewrites exactly the text files that `open` finds unlabelled. */
  lemma OpenAgreesWithRelease(path: string, content: seq<byte>, calls: Calls)
    requires Possible(calls, content) && AllSucceed(calls, content)
    ensures Rewrites(path, content, calls) <==> Contains(path, ".txt") && !Labelled(content)
  {
  }

  /** A whole life: a text file that is not labelled is released, released again, opened and read. */
  method ReleaseTwiceAndOpen(disk: Disk, path: string, first: Calls, second: Calls, processPath: string)
    returns (r: OpenResult, shown: seq<byte>)
    requires Contains(path, ".txt") && !Labelled(disk.file)
    requires Possible(first, disk.file) && AllSucceed(first, disk.file)
    requires |disk.temp| <= ENCRYPT_FILE_HEADER_SIZE + |disk.file|
    requires second.header == ENCRYPT_FILE_HEADER_SIZE
    requires second.delivered <= ENCRYPT_FILE_HEADER_SIZE + |disk.file|
    modifies disk
    ensures |disk.file| == ENCRYPT_FILE_HEADER_SIZE + |old(disk.file)|
    ensures r == (if Contains(processPath, "cat") then Encrypt else Decrypt)
    ensures shown == old(disk.file)
  {
    ghost var original, stale := disk.file, disk.temp;
    Release(disk, path, first);
    RecoveredContents(original, first, stale);
    RewrittenIsLabelled(original, first, stale);
    SecondReleaseKeeps(path, original, first, stale, second);
    Release(disk, path, second);
    r := Open(disk.file, true, ENCRYPT_FILE_HEADER_SIZE, processPath);
    shown := Recovered(disk.file);
  }
}
