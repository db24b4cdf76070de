/**
 * The per-instance part of the "myplug" external plugin
 * (ext_plugin_sample.c): the address of a frame in a channel area, and the
 * instance with its init, close and transfer callbacks.
 *
 * A dump file is modelled by its handle state and the bytes written to it;
 * a duplicated file name by the state of its heap copy. Whether each
 * `fopen` succeeds is a parameter of Init.
 */
module ExtPlugin {
  import opened Wrappers
  import opened Posix
  import opened PluginConfig
  import DummyAlgo

  /**
   * A `snd_pcm_channel_area_t` without its base address: the bit offset of
   * the first sample and the distance in bits between two frames. The base
   * address is the start of the array the area lives in.
   */
  datatype Area = Area(first: Uint32, step: Uint32)

  /**
   * `area_addr`: the byte offset from the area's base of frame `offset`.
   * The bit offset is held in an `unsigned int`, so it wraps at 2^32.
   */
  function AreaAddr(area: Area, offset: Uint64): (r: nat)
    ensures r < 0x2000_0000
    ensures area.first + area.step * offset < 0x1_0000_0000 ==>
      8 * r <= area.first + area.step * offset < 8 * r + 8
  {
    ((area.first + area.step * offset) % 0x1_0000_0000) / 8
  }

  /**
   * In an interleaved buffer whose frame is `frameBytes` bytes long, the
   * channel starting `channelByte` bytes into the frame has frame `offset`
   * at byte `channelByte + offset * frameBytes`, as long as the bit offset
   * fits in 32 bits.
   */
  lemma InterleavedAddr(channelByte: nat, frameBytes: nat, offset: Uint64)
    requires 8 * channelByte < 0x1_0000_0000 && 8 * frameBytes < 0x1_0000_0000
    requires 8 * (channelByte + offset * frameBytes) < 0x1_0000_0000
    ensures AreaAddr(Area(8 * channelByte, 8 * frameBytes), offset) == channelByte + offset * frameBytes
  {
    var bits := 8 * channelByte + 8 * frameBytes * offset;
    assert bits == 8 * (channelByte + offset * frameBytes);
    assert bits % 0x1_0000_0000 == bits;
  }

  /** A `FILE *` field: NULL, an open stream, or a stream already closed. */
  datatype File = NoFile | OpenFile(path: string) | ClosedFile(path: string)

  /** A `const char *` name field: NULL, a live heap copy, or a freed one. */
  datatype Name = NullName | Owned(text: string) | Released(text: string)

  /** The host's calling discipline for one instance. */
  datatype Phase = Created | Ready | InitFailed | Closed

  /** The name field the validator leaves: NULL, or a copy of the string. */
  function NameOf(s: Option<string>): (r: Name)
    ensures r.NullName? <==> s.None?
    ensures s.Some? ==> r == Owned(s.value)
  {
    match s
    case None => NullName
    case Some(t) => Owned(t)
  }

  /** `if (f != NULL) fclose(f)`: nothing is left open, NULL stays NULL, the path is kept. */
  function CloseFile(f: File): (r: File)
    ensures !r.OpenFile?
    ensures r.NoFile? <==> f.NoFile?
    ensures !f.NoFile? ==> r.path == f.path
  {
    match f
    case OpenFile(p) => ClosedFile(p)
    case _ => f
  }

  /**
   * `if (p != NULL) free(p)`: no live copy is left, NULL stays NULL, the
   * text is kept; freeing a freed name again is not modelled further.
   */
  function Free(p: Name): (r: Name)
    ensures !r.Owned?
    ensures r.NullName? <==> p.NullName?
    ensures !p.NullName? ==> r.text == p.text
  {
    match p
    case Owned(t) => Released(t)
    case _ => p
  }

  /** `myplug_info`: one instance of the plugin. */
  class Myplug {
    var algo: Algo
    var dumpEnable: bool
    var inputFile: File
    var outputFile: File
    var inputName: Name
    var outputName: Name
    /** The bytes written so far to the input and the output dump file. */
    var inputDump: seq<byte>
    var outputDump: seq<byte>
    ghost var phase: Phase

    /** Before init no file is open and no name is freed; after a successful init the dump files are open. */
    ghost predicate Valid()
      reads this
    {
      (phase == Created ==>
         inputFile == NoFile && outputFile == NoFile
         && !inputName.Released? && !outputName.Released?)
      && (phase == Ready && dumpEnable ==> inputFile.OpenFile? && outputFile.OpenFile?)
    }

    /** The instance as the validator fills it in (line 269-280, 311-313, 325, 375-376). */
    constructor (cfg: PlugConfig)
      ensures algo == cfg.algo && dumpEnable == cfg.dumpEnable
      ensures inputName == NameOf(cfg.inputName) && outputName == NameOf(cfg.outputName)
      ensures inputFile == NoFile && outputFile == NoFile
      ensures inputDump == [] && outputDump == []
      ensures phase == Created && Valid()
    {
      algo, dumpEnable := cfg.algo, cfg.dumpEnable;
      inputName, outputName := NameOf(cfg.inputName), NameOf(cfg.outputName);
      inputFile, outputFile := NoFile, NoFile;
      inputDump, outputDump := [], [];
      phase := Created;
    }

    /**
     * `my_own_init`. `inputOpens` and `outputOpens` say whether each
     * `fopen(..., "wb")` succeeds; an open file starts empty.
     */
    method Init(inputOpens: bool, outputOpens: bool) returns (r: int)
      requires Valid() && phase == Created
      modifies this
      ensures Valid() && phase == (if r == 0 then Ready else InitFailed)
      ensures algo == old(algo) && dumpEnable == old(dumpEnable)
      ensures !dumpEnable ==>
        r == 0 && unchanged(this`inputFile, this`outputFile)
        && unchanged(this`inputName, this`outputName, this`inputDump, this`outputDump)
      ensures dumpEnable && (old(inputName) == NullName || old(outputName) == NullName) ==>
        r == -EINVAL && unchanged(this`inputFile, this`outputFile)
        && unchanged(this`inputName, this`outputName, this`inputDump, this`outputDump)
      ensures dumpEnable && old(inputName).Owned? && old(outputName).Owned? && !inputOpens ==>
        r == -ENOENT && inputFile == NoFile && outputFile == NoFile
        && inputName == Released(old(inputName).text) && outputName == old(outputName)
        && unchanged(this`inputDump, this`outputDump)
      ensures dumpEnable && old(inputName).Owned? && old(outputName).Owned? && inputOpens && !outputOpens ==>
        r == -ENOENT && inputFile == OpenFile(old(inputName).text) && outputFile == NoFile
        && inputName == old(inputName) && outputName == Released(old(outputName).text)
        && inputDump == [] && outputDump == old(outputDump)
      ensures dumpEnable && old(inputName).Owned? && old(outputName).Owned? && inputOpens && outputOpens ==>
        r == 0 && inputFile == OpenFile(old(inputName).text) && outputFile == OpenFile(old(outputName).text)
        && inputName == old(inputName) && outputName == old(outputName)
        && inputDump == [] && outputDump == []
    {
      if algo == Dummy {
        var _ := DummyAlgo.Init();
      }
      if dumpEnable {
        if inputName == NullName || outputName == NullName {
          phase := InitFailed;
          return -EINVAL;
        }
        if inputOpens {
          inputFile, inputDump := OpenFile(inputName.text), [];
        } else {
          inputFile := NoFile;
          inputName := Free(inputName);
          phase := InitFailed;
          return -ENOENT;
        }
        if outputOpens {
          outputFile, outputDump := OpenFile(outputName.text), [];
        } else {
          outputFile := NoFile;
          outputName := Free(outputName);
          phase := InitFailed;
          return -ENOENT;
        }
      }
      phase := Ready;
      r := 0;
    }

    /**
     * `my_own_close`: with dumping enabled, closes the handles that are not
     * NULL and frees the names that are not NULL; always returns 0.
     */
    method Close() returns (r: int)
      requires phase != Closed
      modifies this
      ensures r == 0 && phase == Closed && Valid()
      ensures algo == old(algo) && dumpEnable == old(dumpEnable)
      ensures inputDump == old(inputDump) && outputDump == old(outputDump)
      ensures inputFile == (if dumpEnable then CloseFile(old(inputFile)) else old(inputFile))
      ensures outputFile == (if dumpEnable then CloseFile(old(outputFile)) else old(outputFile))
      ensures inputName == (if dumpEnable then Free(old(inputName)) else old(inputName))
      ensures outputName == (if dumpEnable then Free(old(outputName)) else old(outputName))
    {
      if algo == Dummy {
        DummyAlgo.Close();
      }
      if dumpEnable {
        if inputFile != NoFile {
          inputFile := CloseFile(inputFile);
        }
        if outputFile != NoFile {
          outputFile := CloseFile(outputFile);
        }
        if inputName != NullName {
          inputName := Free(inputName);
        }
        if outputName != NullName {
          outputName := Free(outputName);
        }
      }
      phase := Closed;
      r := 0;
    }

    /**
     * `my_own_transfer` for `size` frames of `frameBytes` bytes each (what
     * `snd_pcm_frames_to_bytes` gives): dump the source block, let the
     * algorithm copy it to the destination block, dump the destination
     * block, and return the frame count.
     */
    method Transfer(
      dst: array<byte>, dstArea: Area, dstOffset: Uint64,
      src: array<byte>, srcArea: Area, srcOffset: Uint64,
      size: Uint64, frameBytes: nat)
      returns (r: int)
      requires Valid() && phase == Ready
      requires size * frameBytes <= IntMax
      requires size < 0x8000_0000_0000_0000
      requires AreaAddr(dstArea, dstOffset) + size * frameBytes <= dst.Length
      requires AreaAddr(srcArea, srcOffset) + size * frameBytes <= src.Length
      requires dst == src ==>
        AreaAddr(dstArea, dstOffset) + size * frameBytes <= AreaAddr(srcArea, srcOffset)
        || AreaAddr(srcArea, srcOffset) + size * frameBytes <= AreaAddr(dstArea, dstOffset)
      modifies this, dst
      ensures r == size
      ensures Valid() && phase == old(phase)
      ensures algo == old(algo) && dumpEnable == old(dumpEnable)
      ensures unchanged(this`inputFile, this`outputFile, this`inputName, this`outputName)
      ensures
        var sa, n := AreaAddr(srcArea, srcOffset), size * frameBytes;
        inputDump == old(inputDump) + (if dumpEnable then old(src[sa..sa + n]) else [])
      ensures
        var sa, da, n := AreaAddr(srcArea, srcOffset), AreaAddr(dstArea, dstOffset), size * frameBytes;
        dst[..] == if algo == Dummy then DummyAlgo.Copied(old(dst[..]), da, old(src[..]), sa, n)
                   else old(dst[..])
      ensures
        var da, n := AreaAddr(dstArea, dstOffset), size * frameBytes;
        outputDump == old(outputDump) + (if dumpEnable then dst[da..da + n] else [])
      ensures
        var sa, n := AreaAddr(srcArea, srcOffset), size * frameBytes;
        dumpEnable && algo == Dummy ==>
          outputDump == old(outputDump) + old(src[sa..sa + n])
      ensures src != dst ==> src[..] == old(src[..])
    {
      var sizeBytes := size * frameBytes;
      var from := AreaAddr(srcArea, srcOffset);
      var at := AreaAddr(dstArea, dstOffset);
      if dumpEnable {
        inputDump := inputDump + src[from..from + sizeBytes];
      }
      if algo == Dummy {
        var _ := DummyAlgo.Transfer(dst, at, src, from, sizeBytes);
      }
      if dumpEnable {
        outputDump := outputDump + dst[at..at + sizeBytes];
      }
      r := size;
    }
  }

  // -----------------------------------------------------------------------
  // End to end: build, init, one frame, close
  // -----------------------------------------------------------------------

  /** `algo="dummy"`, a slave, dumping enabled to "in.raw" and "out.raw". */
  const DumpConf := [
    Node(Some("algo"), Err(-EINVAL), Ok("dummy")),
    Node(Some("slave"), Err(-EINVAL), Ok("hw:0")),
    Node(Some("dump_enable"), Ok(true), Err(-EINVAL)),
    Node(Some("input_fname"), Err(-EINVAL), Ok("in.raw")),
    Node(Some("output_fname"), Err(-EINVAL), Ok("out.raw"))]

  /** The same without dump names, with an ignored `type` node and `help` set. */
  const HelpConf := [
    Node(Some("type"), Err(-EINVAL), Ok("myplug")),
    Node(Some("algo"), Err(-EINVAL), Ok("dummy")),
    Node(Some("slave"), Err(-EINVAL), Ok("hw:0")),
    Node(Some("help"), Ok(true), Err(-EINVAL))]

  lemma DumpConfBuilt()
    ensures Construct(DumpConf, false, 0)
         == Built(PlugConfig(Dummy, true, Some("in.raw"), Some("out.raw")))
  {
    var c := DumpConf;
    var s1 := Start.(algo := Dummy);
    var s2 := s1.(slave := Some(c[1]));
    var s3 := s2.(dump := true);
    var s4 := s3.(ifname := Some("in.raw"));
    var s5 := s4.(ofname := Some("out.raw"));
    assert Scan(c[4..], s4) == Ok(s5) by {
      assert c[4..][1..] == [];
    }
    assert Scan(c[3..], s3) == Ok(s5) by {
      assert c[3..][1..] == c[4..];
    }
    assert Scan(c[2..], s2) == Ok(s5) by {
      assert c[2..][1..] == c[3..];
    }
    assert Scan(c[1..], s1) == Ok(s5) by {
      assert c[1..][1..] == c[2..];
    }
  }

  /** With `help` set, construction asks the caller to try again, before any dump name is examined. */
  lemma HelpConfRetries()
    ensures Construct(HelpConf, false, 0) == Failed(-EAGAIN)
  {
    var c := HelpConf;
    var s2 := Start.(algo := Dummy);
    var s3 := s2.(slave := Some(c[2]));
    var s4 := s3.(help := true);
    assert Scan(c[3..], s3) == Ok(s4) by {
      assert c[3..][1..] == [];
    }
    assert Scan(c[2..], s2) == Ok(s4) by {
      assert c[2..][1..] == c[3..];
    }
    assert Scan(c[1..], Start) == Ok(s4) by {
      assert c[1..][1..] == c[2..];
    }
  }

  /** Construction from DumpConf and init: the instance is ready, with both dump files open and empty. */
  method DumpScenario()
  {
    var outcome := MyplugOpen(DumpConf, false, 0);
    DumpConfBuilt();
    var plug := new Myplug(outcome.cfg);
    var status := plug.Init(true, true);
    assert status == 0;
    DumpOneFrame(plug);
  }

  /** One transfer of a 4-byte frame [1, 2, 3, 4], then close: both dump files hold exactly that frame. */
  method DumpOneFrame(plug: Myplug)
    requires plug.Valid() && plug.phase == Ready
    requires plug.algo == Dummy && plug.dumpEnable
    requires plug.inputFile == OpenFile("in.raw") && plug.outputFile == OpenFile("out.raw")
    requires plug.inputDump == [] && plug.outputDump == []
    modifies plug
    ensures plug.inputDump == [1, 2, 3, 4] && plug.outputDump == [1, 2, 3, 4]
    ensures plug.inputFile == ClosedFile("in.raw") && plug.outputFile == ClosedFile("out.raw")
  {
    var src := new byte[4];
    src[0], src[1], src[2], src[3] := 1, 2, 3, 4;
    var dst := new byte[4];
    assert AreaAddr(Area(0, 32), 0) == 0;
    ghost var block := src[..];
    assert block == [1, 2, 3, 4];
    var frames := plug.Transfer(dst, Area(0, 32), 0, src, Area(0, 32), 0, 1, 4);
    assert frames == 1;
    assert plug.inputDump == block[0..4] == block;
    assert plug.outputDump == block[0..4];
    var status := plug.Close();
  }
}
