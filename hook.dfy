/** `property_destroy_hook`: the detour on the host's `property_destroy`.
    It looks for a `/call/game` node whose method is a score save (always)
    or a profile save (only when class export is enabled), serialises the
    property with flag 0x800 raised and 0x008 lowered, hands the decoded
    call to the matching submission builder, and in every case but a null
    property ends by calling the original function.

    The host is a `HostProperty` whose answers are fixed up front
    (`Replies`); its flags and the trace of what the hook did to it are the
    state the hook changes. */
module Hook {
  import opened Wrappers
  import opened Ints
  import opened Utf8
  import opened Game
  import opened Submission
  import ScoresHandler
  import ClassUpdate

  /** The flag raised while the property is serialised. */
  const RaisedFlag: bv32 := 0x800
  /** The flag lowered meanwhile. */
  const LoweredFlag: bv32 := 0x008

  /** Size of the stack buffer the node name and method are read into. */
  const NameBufferSize: nat := 256
  /** How many bytes of that buffer are read as the node name ... */
  const NameLength: nat := 4
  /** ... and as the method. */
  const MethodLength: nat := 11

  const GameName: seq<u8> := Ascii("game")
  const ScoresMethod: seq<u8> := Ascii("sv6_save_m")
  const SaveMethod: seq<u8> := Ascii("sv6_save")

  /** The host's answers for one property: whether `/call/game` exists, the
      status and bytes of reading its name, of reading its `method@`
      attribute into the same buffer, the serialised size, the status and
      bytes of serialising the property, and what the original function
      returns. */
  datatype Replies = Replies(
    gameNodeFound: bool,
    nameResult: i32, nameBytes: seq<u8>,
    referResult: i32, referBytes: seq<u8>,
    size: i32,
    writeResult: i32, payloadBytes: seq<u8>,
    originalResult: i32)

  /** The configuration and session values the hook reads, and the JSON
      decoder of the serialised property (not part of this model). */
  datatype Env = Env(
    exportClass: bool,
    whitelist: seq<string>,
    currentCard: Option<string>,
    timeAchieved: nat,
    decode: seq<u8> -> Option<CallGame>)

  /** What processing the serialised property gave. */
  datatype Processing =
    | Scores(scores: Outcome)      // the score save went through `process_scores`
    | ClassSave(save: Outcome)     // the profile save went through `process_save`
    | Undecodable                  // "Could not parse property"
    | WrongShape                   // the call held the other kind of save

  /** What the hook does to the property, in order. */
  datatype Event =
    | ErrorCleared
    | FlagsSet(raise: bv32, lower: bv32)
    | Processed(processing: Processing)
    | OriginalCalled

  const Raise := FlagsSet(RaisedFlag, LoweredFlag)
  const Restore := FlagsSet(LoweredFlag, RaisedFlag)

  /** `property_set_flag`: lower the `lower` bits, raise the `raise` bits. */
  function ApplyFlags(f: bv32, raise: bv32, lower: bv32): bv32 {
    (f & !lower) | raise
  }

  /** The flags after the trace's flag changes. */
  function FlagsAfter(f: bv32, events: seq<Event>): bv32
    decreases |events|
  {
    if events == [] then f
    else
      var g := FlagsAfter(f, events[..|events| - 1]);
      match events[|events| - 1]
      case FlagsSet(raise, lower) => ApplyFlags(g, raise, lower)
      case _ => g
  }

  /** The flags of the two traces that serialise the property: the raise,
      then the restore. */
  lemma FlagsAfterSerialising(f: bv32, p: Processing)
    ensures FlagsAfter(f, [Raise, Restore, OriginalCalled]) == Restored(f)
    ensures FlagsAfter(f, [Raise, Restore, Processed(p), OriginalCalled]) == Restored(f)
  {
    assert [Raise][..0] == [];
    assert FlagsAfter(f, [Raise]) == ApplyFlags(f, RaisedFlag, LoweredFlag);
    assert [Raise, Restore][..1] == [Raise];
    assert FlagsAfter(f, [Raise, Restore]) == Restored(f);
    var short := [Raise, Restore, OriginalCalled];
    assert short[..2] == [Raise, Restore];
    var long := [Raise, Restore, Processed(p), OriginalCalled];
    assert long[..3] == [Raise, Restore, Processed(p)];
    assert long[..3][..2] == [Raise, Restore];
  }

  lemma FlagsAfterSelected(f: bv32, r: Replies, env: Env, name: seq<u8>)
    requires name == ScoresMethod || name == SaveMethod
    ensures FlagsAfter(f, SelectedEvents(r, env, name)) == Restored(f)
  {
    if r.size >= 0 && r.writeResult >= 0 && ValidUtf8(Payload(r)) {
      FlagsAfterSerialising(f, Route(name, env, env.decode(Payload(r))));
    } else {
      FlagsAfterSerialising(f, Undecodable);
    }
  }

  /** The flags of the two traces that do not touch them. */
  lemma FlagsAfterUntouched(f: bv32)
    ensures FlagsAfter(f, [ErrorCleared, OriginalCalled]) == f
    ensures FlagsAfter(f, [OriginalCalled]) == f
  {
    assert [ErrorCleared, OriginalCalled][..1] == [ErrorCleared];
    assert [ErrorCleared][..0] == [] && [OriginalCalled][..0] == [];
  }

  /** The flags after a raise and a restore: 0x008 up, 0x800 down, every
      other bit as before. */
  function Restored(f: bv32): bv32 {
    ApplyFlags(ApplyFlags(f, RaisedFlag, LoweredFlag), LoweredFlag, RaisedFlag)
  }

  /** `written` laid over the start of `buffer`, cut to the buffer's size. */
  function Overlay(buffer: seq<u8>, written: seq<u8>): (r: seq<u8>)
    ensures |r| == |buffer|
    ensures forall i :: 0 <= i < |r| ==> r[i] == if i < |written| then written[i] else buffer[i]
  {
    if |written| >= |buffer| then written[..|buffer|] else written + buffer[|written|..]
  }

  function Zeros(n: nat): (r: seq<u8>)
    ensures |r| == n && forall i :: 0 <= i < n ==> r[i] == 0
  {
    seq(n, _ => 0)
  }

  function NameField(r: Replies): seq<u8> {
    Overlay(Zeros(NameBufferSize), r.nameBytes)[..NameLength]
  }

  /** The method attribute is read into the buffer that already holds the
      name. */
  function MethodField(r: Replies): seq<u8> {
    Overlay(Overlay(Zeros(NameBufferSize), r.nameBytes), r.referBytes)[..MethodLength]
  }

  function Payload(r: Replies): seq<u8>
    requires r.size >= 0
  {
    Overlay(Zeros(r.size), r.payloadBytes)
  }

  /** The method name: the field with its NUL characters removed. */
  function MethodName(field: seq<u8>): seq<u8>
    requires ValidUtf8(field)
  {
    RemoveNul(field)
  }

  /** The methods the hook processes. */
  predicate Selected(name: seq<u8>, exportClass: bool) {
    name == ScoresMethod || (exportClass && name == SaveMethod)
  }

  /** The routing of a decoded call: a score save to the score builder, a
      profile save to the class builder. */
  function Route(name: seq<u8>, env: Env, decoded: Option<CallGame>): (p: Processing)
    requires name == ScoresMethod || name == SaveMethod
    ensures p.Scores? <==> name == ScoresMethod && decoded.Some? && decoded.value.Left?
    ensures p.ClassSave? <==> name == SaveMethod && decoded.Some? && decoded.value.Right?
    ensures p.WrongShape? <==> decoded.Some? && (name == ScoresMethod) != decoded.value.Left?
    ensures p.Undecodable? <==> decoded.None?
    ensures p.Scores? ==>
      p.scores == ScoresHandler.ProcessScores(decoded.value.left, env.currentCard, env.whitelist, env.timeAchieved)
    ensures p.ClassSave? ==> p.save == ClassUpdate.ProcessClassUpdate(decoded.value.right, env.whitelist)
  {
    if decoded.None? then Undecodable
    else if name == ScoresMethod then
      match decoded.value
      case Left(scores) => Scores(ScoresHandler.ProcessScores(scores, env.currentCard, env.whitelist, env.timeAchieved))
      case Right(_) => WrongShape
    else
      match decoded.value
      case Right(save) => ClassSave(ClassUpdate.ProcessClassUpdate(save, env.whitelist))
      case Left(_) => WrongShape
  }

  /** The trace of one hook call on a non-null property. */
  function HookEvents(r: Replies, env: Env): (ev: seq<Event>)
    ensures 1 <= |ev| <= 4 && ev[|ev| - 1] == OriginalCalled
    ensures ev[0] == ErrorCleared <==> !r.gameNodeFound
    ensures ev[0] == Raise <==> |ev| > 2
  {
    if !r.gameNodeFound then [ErrorCleared, OriginalCalled]
    else if r.nameResult < 0 || !ValidUtf8(NameField(r)) || NameField(r) != GameName then [OriginalCalled]
    else if r.referResult < 0 || !ValidUtf8(MethodField(r))
         || !Selected(MethodName(MethodField(r)), env.exportClass) then [OriginalCalled]
    else SelectedEvents(r, env, MethodName(MethodField(r)))
  }

  /** The trace once the method is selected: the property is serialised
      between a raise and a restore of the flags, then processed when the
      serialisation succeeded and is well-formed UTF-8. */
  function SelectedEvents(r: Replies, env: Env, name: seq<u8>): (ev: seq<Event>)
    requires name == ScoresMethod || name == SaveMethod
    ensures |ev| >= 3 && ev[..2] == [Raise, Restore] && ev[|ev| - 1] == OriginalCalled
    ensures |ev| == 4 <==> r.size >= 0 && r.writeResult >= 0 && ValidUtf8(Payload(r))
    ensures |ev| == 4 ==> ev[2] == Processed(Route(name, env, env.decode(Payload(r))))
  {
    if r.size < 0 || r.writeResult < 0 || !ValidUtf8(Payload(r)) then [Raise, Restore, OriginalCalled]
    else [Raise, Restore, Processed(Route(name, env, env.decode(Payload(r)))), OriginalCalled]
  }

  /** `bytes` written over the start of `buffer`, as the host does. */
  method WriteInto(buffer: array<u8>, bytes: seq<u8>)
    modifies buffer
    ensures buffer[..] == Overlay(old(buffer[..]), bytes)
  {
    var n := if |bytes| < buffer.Length then |bytes| else buffer.Length;
    for i := 0 to n
      invariant forall k :: 0 <= k < buffer.Length ==> buffer[k] == if k < i then bytes[k] else old(buffer[k])
    {
      buffer[i] := bytes[i];
    }
  }

  /** The host's property and the operations the hook calls on it. */
  class HostProperty {
    const replies: Replies
    var flags: bv32
    var events: seq<Event>

    constructor (replies: Replies, flags: bv32)
      ensures this.replies == replies && this.flags == flags && events == []
    {
      this.replies := replies;
      this.flags := flags;
      events := [];
    }

    /** `property_search` for `/call/game`. */
    method Search() returns (found: bool)
      ensures found == replies.gameNodeFound
    {
      found := replies.gameNodeFound;
    }

    /** `property_clear_error`. */
    method ClearError()
      modifies this
      ensures flags == old(flags) && events == old(events) + [ErrorCleared]
    {
      events := events + [ErrorCleared];
    }

    /** `property_node_name` into `buffer`. */
    method NodeName(buffer: array<u8>) returns (result: i32)
      modifies buffer
      ensures result == replies.nameResult
      ensures buffer[..] == Overlay(old(buffer[..]), replies.nameBytes)
    {
      WriteInto(buffer, replies.nameBytes);
      result := replies.nameResult;
    }

    /** `property_node_refer` of the `method@` attribute into `buffer`. */
    method NodeRefer(buffer: array<u8>) returns (result: i32)
      modifies buffer
      ensures result == replies.referResult
      ensures buffer[..] == Overlay(old(buffer[..]), replies.referBytes)
    {
      WriteInto(buffer, replies.referBytes);
      result := replies.referResult;
    }

    /** `property_query_size`. */
    method QuerySize() returns (size: i32)
      ensures size == replies.size
    {
      size := replies.size;
    }

    /** `property_mem_write`: the serialised property into `buffer`. */
    method MemWrite(buffer: array<u8>) returns (result: i32)
      modifies buffer
      ensures result == replies.writeResult
      ensures buffer[..] == Overlay(old(buffer[..]), replies.payloadBytes)
    {
      WriteInto(buffer, replies.payloadBytes);
      result := replies.writeResult;
    }

    /** `property_set_flag`. */
    method SetFlag(raise: bv32, lower: bv32)
      modifies this
      ensures flags == ApplyFlags(old(flags), raise, lower)
      ensures events == old(events) + [FlagsSet(raise, lower)]
    {
      flags := ApplyFlags(flags, raise, lower);
      events := events + [FlagsSet(raise, lower)];
    }

    /** The hook's processing of the decoded call (its submission, when
        there is one, is not part of this model). */
    method Process(processing: Processing)
      modifies this
      ensures flags == old(flags) && events == old(events) + [Processed(processing)]
    {
      events := events + [Processed(processing)];
    }

    /** The original `property_destroy`. */
    method CallOriginal() returns (result: i32)
      modifies this
      ensures result == replies.originalResult
      ensures flags == old(flags) && events == old(events) + [OriginalCalled]
    {
      events := events + [OriginalCalled];
      result := replies.originalResult;
    }
  }

  /** `property_destroy_hook`. */
  method PropertyDestroyHook(property: HostProperty?, env: Env) returns (ret: i32)
    modifies property
    ensures property == null ==> ret == 0
    ensures property != null ==>
      && ret == property.replies.originalResult
      && property.events == old(property.events) + HookEvents(property.replies, env)
      && property.flags == FlagsAfter(old(property.flags), HookEvents(property.replies, env))
  {
    if property == null {
      return 0;
    }
    FlagsAfterUntouched(property.flags);

    var found := property.Search();
    if !found {
      property.ClearError();
      ret := property.CallOriginal();
      return;
    }

    var buffer := new u8[NameBufferSize](_ => 0);
    assert buffer[..] == Zeros(NameBufferSize);
    var result := property.NodeName(buffer);
    if result < 0 {
      ret := property.CallOriginal();
      return;
    }
    var name := buffer[..NameLength];
    if !ValidUtf8(name) || name != GameName {
      ret := property.CallOriginal();
      return;
    }

    result := property.NodeRefer(buffer);
    if result < 0 {
      ret := property.CallOriginal();
      return;
    }
    var field := buffer[..MethodLength];
    if !ValidUtf8(field) {
      ret := property.CallOriginal();
      return;
    }
    var methodName := MethodName(field);
    if methodName != ScoresMethod && (!env.exportClass || methodName != SaveMethod) {
      ret := property.CallOriginal();
      return;
    }
    FlagsAfterSelected(property.flags, property.replies, env, methodName);
    ret := SerialiseAndProcess(property, env, methodName);
  }

  /** The rest of the hook once the method is selected. */
  method SerialiseAndProcess(property: HostProperty, env: Env, methodName: seq<u8>) returns (ret: i32)
    requires methodName == ScoresMethod || methodName == SaveMethod
    modifies property
    ensures ret == property.replies.originalResult
    ensures property.events == old(property.events) + SelectedEvents(property.replies, env, methodName)
    ensures property.flags == Restored(old(property.flags))
  {
    property.SetFlag(RaisedFlag, LoweredFlag);
    var size := property.QuerySize();
    if size < 0 {
      property.SetFlag(LoweredFlag, RaisedFlag);
      ret := property.CallOriginal();
      return;
    }
    var payload := new u8[size](_ => 0);
    assert payload[..] == Zeros(size);
    var result := property.MemWrite(payload);
    property.SetFlag(LoweredFlag, RaisedFlag);
    if result < 0 {
      ret := property.CallOriginal();
      return;
    }
    var text := payload[..];
    if !ValidUtf8(text) {
      ret := property.CallOriginal();
      return;
    }
    property.Process(Route(methodName, env, env.decode(text)));
    ret := property.CallOriginal();
  }

  // ------------------------------------------------------------------ properties

  /** Every call on a non-null property ends by calling the original
      function, and calls it exactly once. */
  lemma DelegatesOnceAtEnd(r: Replies, env: Env)
    ensures var ev := HookEvents(r, env);
      && |ev| > 0 && ev[|ev| - 1] == OriginalCalled
      && forall i :: 0 <= i < |ev| - 1 ==> ev[i] != OriginalCalled
  {
  }

  /** The flags end as they were, except that when the hook serialised the
      property it leaves 0x008 raised and 0x800 lowered; other bits never
      change. A property in the usual state (0x008 up, 0x800 down) ends
      exactly as it was. */
  lemma FlagsRestored(r: Replies, env: Env, f: bv32)
    ensures var g := FlagsAfter(f, HookEvents(r, env));
      && (Raise in HookEvents(r, env) <==> Restore in HookEvents(r, env))
      && (Raise !in HookEvents(r, env) ==> g == f)
      && (Raise in HookEvents(r, env) ==> g == (f & !RaisedFlag) | LoweredFlag)
    ensures f & RaisedFlag == 0 && f & LoweredFlag == LoweredFlag ==> FlagsAfter(f, HookEvents(r, env)) == f
  {
    FlagsAfterUntouched(f);
    var ev := HookEvents(r, env);
    if Raise in ev {
      FlagsAfterSelected(f, r, env, MethodName(MethodField(r)));
    }
  }

  /** The method check reads only bytes: the field passes exactly when its
      NUL-free bytes are one of the selected names, whatever the UTF-8
      check says, because both names are ASCII. */
  lemma MethodCheckIsBytewise(field: seq<u8>, exportClass: bool)
    ensures (ValidUtf8(field) && Selected(MethodName(field), exportClass))
        <==> Selected(RemoveNul(field), exportClass)
  {
    if Selected(RemoveNul(field), exportClass) {
      assert IsAscii(RemoveNul(field));
      RemoveNulAscii(field);
      AsciiIsValid(field);
    }
  }

  /** Likewise the name check passes exactly when the four bytes spell
      `game`. */
  lemma NameCheckIsBytewise(field: seq<u8>)
    ensures (ValidUtf8(field) && field == GameName) <==> field == GameName
  {
    if field == GameName {
      AsciiIsValid(field);
    }
  }

  /** The call is processed exactly when the game node exists, its name
      reads as `game`, its method is the score save (or the profile save
      with class export on) and the property serialises to well-formed
      UTF-8. */
  lemma ProcessedExactlyWhenSelected(r: Replies, env: Env)
    ensures (exists i :: 0 <= i < |HookEvents(r, env)| && HookEvents(r, env)[i].Processed?)
      <==> && r.gameNodeFound
           && r.nameResult >= 0 && NameField(r) == GameName
           && r.referResult >= 0 && Selected(RemoveNul(MethodField(r)), env.exportClass)
           && r.size >= 0 && r.writeResult >= 0 && ValidUtf8(Payload(r))
  {
    NameCheckIsBytewise(NameField(r));
    MethodCheckIsBytewise(MethodField(r), env.exportClass);
    var ev := HookEvents(r, env);
    if |ev| == 4 {
      assert ev[2].Processed?;
    } else {
      assert ev == [ErrorCleared, OriginalCalled] || ev == [OriginalCalled] || ev == [Raise, Restore, OriginalCalled];
    }
  }

  /** A node whose name does not read as `game`, and a method that is not
      selected, go straight to the original function: no flag is touched
      and nothing is processed. */
  lemma UnselectedCallsDelegate(r: Replies, env: Env)
    requires r.gameNodeFound
    requires r.nameResult < 0 || NameField(r) != GameName
             || r.referResult < 0 || !Selected(RemoveNul(MethodField(r)), env.exportClass)
    ensures HookEvents(r, env) == [OriginalCalled]
  {
    NameCheckIsBytewise(NameField(r));
    MethodCheckIsBytewise(MethodField(r), env.exportClass);
  }

  /** Without class export, a profile save is never processed. */
  lemma ProfileSaveNeedsExportClass(r: Replies, env: Env)
    requires !env.exportClass
    ensures forall e :: e in HookEvents(r, env) ==> !(e.Processed? && e.processing.ClassSave?)
  {
  }

  /** A property that is not a `/call/game` node gets its error cleared and
      nothing else before the original call. */
  lemma MissingGameNodeClearsError(r: Replies, env: Env)
    requires !r.gameNodeFound
    ensures HookEvents(r, env) == [ErrorCleared, OriginalCalled]
  {
  }
}
