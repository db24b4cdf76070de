# myplug: a model of a sample ALSA external PCM plugin

The plugin sits between an application and an ALSA slave device. Three
things happen in it:

- At construction it validates its parameters: `algo`, `slave`, `help`,
  `dump_enable`, `input_fname` and `output_fname`.
- At init it opens two dump files.
- For each audio block, `transfer` writes the source bytes to the input
  dump, lets the "dummy" algorithm copy source to destination, writes the
  destination bytes to the output dump, and returns the frame count.

The model is for the build with `DUMMY` and `ENABLE_DUMP` both defined.

Modules, following the source files:

- `Wrappers`, `Posix` (`wrappers.dfy`, `posix.dfy`): Option, errno values,
  C integer ranges, bytes, and `Result`, the shape "a value or a negative
  status" that the host's getters share.
- `DummyAlgo` (`dummy_algo.dfy`, from `dummy_algo.c`): `Init` and
  `Close`, which trace only. `Transfer` is a bulk copy between two arrays
  and is specified by the function `Copied`.
- `PluginConfig` (`plugin_config.dfy`, from the open function of
  `ext_plugin_sample.c`):
  - The host's configuration is a sequence of `Node`s. A node is given by
    its id (None when the id cannot be read) and by what
    `snd_config_get_bool` and `snd_config_get_string` return for it.
  - `Step`, `Scan`, `Finish` and `Construct` specify the code, one function
    per part: one loop iteration, the whole loop, the checks after the loop,
    and the whole entry point.
  - `MyplugOpen` is the loop itself, with its early returns. It is proved
    equal to `Construct`.
  - `Accepted` and `Rejection` say which keys exist and what kind of value
    each needs. `LastOf` and `Summary` say that later nodes override
    earlier ones. `AnyDummy` is the one-way `algo` latch. These are separate,
    declarative definitions of the same rules, and the lemmas prove the two
    descriptions agree.
- `ExtPlugin` (`ext_plugin.dfy`, from the rest of `ext_plugin_sample.c`):
  - `AreaAddr` is the channel-area address arithmetic, with the 32-bit wrap
    of its bit offset.
  - The class `Myplug` is `myplug_info`. It holds the state of each dump
    file handle (NULL, open, closed), the state of each name copy (NULL,
    live, freed) and the bytes written to each dump file.
  - Its methods `Init`, `Close` and `Transfer` are the three callbacks.
  - A ghost field `phase` (Created, Ready, InitFailed, Closed) records
    where the instance is in the host's calling order, and `Valid()` ties
    it to the handles: before init nothing is open and no name is freed,
    and after a successful init with dumping both dump files are open.
    The methods' preconditions state that order (see "## Left out").
  - `DumpScenario` and `DumpOneFrame` are clients that carry the end-to-end
    case through: build, init, one 4-byte frame, close, and both dumps hold
    the frame.

Outside effects are parameters:

- whether `calloc` fails (`allocFails`);
- the status `snd_pcm_extplug_create` returns (`createErr`);
- whether each `fopen` succeeds (`inputOpens`, `outputOpens`);
- the frame size `snd_pcm_frames_to_bytes` implies (`frameBytes`).

## Model

| member | source | states |
|---|---|---|
| DummyAlgo.Init | dummy_algo.c:28-32 | the algorithm's init always reports success (0) and changes no state |
| DummyAlgo.Close | dummy_algo.c:34-39 | no contract beyond its frame: it has no result and modifies nothing, so it changes no algorithm state |
| DummyAlgo.Copied | dummy_algo.c:43 | what `memcpy` leaves: same length, the `n` bytes at `at` equal the source bytes at `from`, every other byte unchanged |
| DummyAlgo.Transfer | dummy_algo.c:41-45 | copies `size` bytes in place (destination becomes `Copied` of its old contents), leaves the source block unchanged, returns exactly `size`; needs in-bounds, non-overlapping blocks, as `memcpy` does |
| PluginConfig.LastOf | ext_plugin_sample.c:282-347 | later nodes override earlier ones: None exactly when no node has the key, otherwise a node with the key after which no node has it |
| PluginConfig.Finish | ext_plugin_sample.c:348-388 | every configuration the post-loop checks let through has the dummy algorithm, and, with dumping, two non-empty distinct names; without dumping, no names |
| PluginConfig.Construct | ext_plugin_sample.c:258-395 | a failed calloc gives -ENOMEM; every built configuration satisfies the same invariant |
| PluginConfig.MyplugOpen | ext_plugin_sample.c:258-388 | the loop with its early returns and the post-loop checks compute exactly `Construct` |
| PluginConfig.Step | ext_plugin_sample.c:285-346 | one node passes the loop body exactly when its id is unreadable, or it is one of the seven keys and has the kind of value that key needs; otherwise it fails with `Rejection` (-EINVAL for an unknown id, the getter's own code for a mistyped value); a passing node never turns Dummy off |
| PluginConfig.ScanAppend | ext_plugin_sample.c:282-347 | the loop over `p + q` is the loop over `p` followed by the loop over `q`, and a failure in `p` ends it |
| PluginConfig.ScanFirstRejection | ext_plugin_sample.c:282-347 | the first node that is not accepted fixes the loop's status, whatever state the loop starts in |
| PluginConfig.Scan | ext_plugin_sample.c:282-347 | the loop runs to its end exactly when every node is accepted, proved both ways from Step's contract; ScanSummary gives the state it then leaves |
| PluginConfig.ScanSummary | ext_plugin_sample.c:282-347 | with every node accepted, the loop leaves the last slave, help, dump_enable, input_fname and output_fname values, and Dummy exactly when some `algo` node says "dummy" |
| PluginConfig.AlgoLatch | ext_plugin_sample.c:303-316 | once the algorithm is Dummy, no later node resets it |
| PluginConfig.FirstRejectionDecides | ext_plugin_sample.c:285-346 | construction returns the rejection status of the first unaccepted node; later nodes are not examined |
| PluginConfig.UnknownKeyRejected | ext_plugin_sample.c:345-346 | a readable id outside the seven keys, reached by the loop, makes construction return -EINVAL |
| PluginConfig.MistypedValueRejected | ext_plugin_sample.c:293-343 | a non-boolean `help`/`dump_enable` or non-string `algo`/`input_fname`/`output_fname` returns that getter's negative code, whatever nodes follow |
| PluginConfig.ConstructOfAccepted | ext_plugin_sample.c:348-388 | with every node accepted, construction is the post-loop checks applied to the per-field summary |
| PluginConfig.MissingSlaveRejected | ext_plugin_sample.c:348-351 | no `slave` node gives -EINVAL, even when `help` is set |
| PluginConfig.MissingAlgoRejected | ext_plugin_sample.c:352-355 | a slave but no `algo="dummy"` node gives -EINVAL, even when `help` is set |
| PluginConfig.HelpRequested | ext_plugin_sample.c:356-359 | with a slave and the dummy algorithm, `help` true gives -EAGAIN whatever the dump names and the creation status |
| PluginConfig.BadDumpNamesRejected | ext_plugin_sample.c:361-374 | with dumping on, a missing or empty input name, a missing or empty output name, or equal names give -EINVAL before the PCM is created |
| PluginConfig.BuiltExactly | ext_plugin_sample.c:348-388 | construction succeeds exactly when the nodes are valid and creation succeeds; the result holds Dummy, the last dump_enable, and the last two names only when dumping |
| ExtPlugin.AreaAddr | ext_plugin_sample.c:62-67 | the byte offset is below 2^29, and when the bit offset fits in 32 bits it is that bit offset divided by 8 |
| ExtPlugin.InterleavedAddr | ext_plugin_sample.c:62-67 | in an interleaved area, frame `offset` of a channel at byte `channelByte` is at byte `channelByte + offset * frameBytes` |
| ExtPlugin.NameOf | ext_plugin_sample.c:375-376 | the name field the validator leaves is NULL exactly when no name was given, and otherwise a live copy of the given string |
| ExtPlugin.CloseFile | ext_plugin_sample.c:132-137 | the NULL-guarded `fclose`: afterwards no handle is open, a NULL handle stays NULL, and the path is kept |
| ExtPlugin.Free | ext_plugin_sample.c:140-144 | the NULL-guarded `free`: afterwards no live copy remains, a NULL name stays NULL, and the text is kept |
| ExtPlugin.Myplug.constructor | ext_plugin_sample.c:269-280 | the instance starts with the validated algorithm, dump flag and names, no open file, and empty dumps |
| ExtPlugin.Myplug.Init | ext_plugin_sample.c:71-110 | 0 without dumping; -EINVAL with a NULL name; -ENOENT when the input open fails (nothing opened, input name freed); -ENOENT when only the output open fails (input left open, output name freed); otherwise both files open and empty, and 0 |
| ExtPlugin.Myplug.Close | ext_plugin_sample.c:113-148 | returns 0; with dumping, closes only the handles that are open and frees only the names that are not NULL; without dumping, changes nothing |
| ExtPlugin.Myplug.Transfer | ext_plugin_sample.c:151-192 | returns the frame count. The block is `size * frameBytes` bytes. The input dump gains the source block as it was before the copy. With the dummy algorithm the destination block becomes the source block. The output dump gains the destination block as it is after the copy, so dumping plus Dummy appends identical bytes to both dumps |
| ExtPlugin.DumpConfBuilt | ext_plugin_sample.c:282-377 | the configuration with algo dummy, a slave, dumping on and names in.raw/out.raw builds exactly that configuration |
| ExtPlugin.HelpConfRetries | ext_plugin_sample.c:356-359 | a configuration with `help` set returns -EAGAIN, with no instance built and no file opened |
| ExtPlugin.DumpOneFrame | ext_plugin_sample.c:151-192 | after one transfer of the frame [1, 2, 3, 4] and close, both dump files hold exactly [1, 2, 3, 4] and are closed |

## Left out

- The ALSA host API (`snd_config_for_each`, the id/bool/string getters,
  `snd_pcm_extplug_create`, the two `set_param_list` calls,
  `snd_pcm_frames_to_bytes`) is foreign code. Each call's result is an
  input of the model: a node's getter results, `createErr`, `frameBytes`.
  A value of the wrong kind is just a getter returning `Err`. The model
  does not say which code ALSA picks.
- The advertised format list (S32, S16) is a constant handed to the host,
  with no behaviour.
- Three effects are printing only, so they are absent: `help()` output,
  `SNDERR` diagnostics, and the traces printed by the algorithm's init and
  close.
- Real file I/O and the heap are reduced to the states above.
  - `fopen` is a success flag, and an opened file starts empty.
  - `fwrite` is an append of the whole block. A short write is not
    modelled, because the source ignores `fwrite`'s result.
  - `strdup` cannot fail in the model. The source does not check its
    result.
- The leaks on error paths are not modelled:
  - when the output open fails, `input_fname` and the still-open input
    handle leak unless the host calls close afterwards (the model's `Close`
    releases both);
  - on early returns of construction, the instance leaks;
  - when `snd_pcm_extplug_create` fails, the instance is freed but the two
    name copies made just before are not, so they leak.
- The compile-time switches are fixed: the model is the build with both
  `DUMMY` and `ENABLE_DUMP` defined.
- Host threading and scheduling are out: the host calls the callbacks one
  at a time.
- DummyAlgo.Close: there is nothing to state beyond its empty frame; it
  has no result, and it cannot change state because it modifies nothing.
- ExtPlugin.Myplug.Init: the model assumes the host calls init once on a
  freshly built instance, transfer only after an init that returned 0,
  and close at most once. Nothing in the C code enforces this order, and
  outside it the C behaves differently:
  - a second init reopens both files with "wb", truncating the dumps and
    leaking the earlier handles;
  - a transfer after a failed init, with dumping enabled, passes a NULL or
    missing handle to `fwrite`.
  The model gives these calls no meaning. Its `requires` on `phase`
  excludes them.
- ExtPlugin.Myplug.Close: the failure paths of init free a name without
  setting the pointer to NULL (lines 95 and 104 of ext_plugin_sample.c).
  If the host then calls close, close frees that name a second time
  (lines 141 and 144). The model leaves the name `Released` and does not
  model this fault.
- ExtPlugin.Myplug.Transfer: two narrowings are required instead of
  modelled.
  - The block's byte count must fit in a C `int`; the source narrows it to
    `int` without checking.
  - The frame count must fit in `snd_pcm_sframes_t`, the type the count is
    returned as.
- Strings are compared as whole character sequences. ALSA configuration
  strings are NUL-terminated and cannot contain NUL, so `strcmp` and
  `strlen` agree with this.
