/** Permission gates: which calls may run, which are refused and which wait for the user. */
module Gates {
  import opened Options
  import opened AgentTypes

  const KEY_LIVE_TEST := "live_test"
  const KEY_SAVE := "save"
  const KEY_DELETE := "delete"

  /** `probe` is None for a tool without a probe and for arguments the probe cannot parse. */
  datatype Tool = Tool(gated: bool, key: string, concurrentSafe: bool, probe: string -> Option<seq<Note>>)

  datatype Gate = Allow | Deny(why: Denial) | Pause(notes: seq<Note>)

  function PermissionFor(s: Settings, key: string): Policy {
    if key == KEY_LIVE_TEST then s.liveTest
    else if key == KEY_SAVE then s.save
    else if key == KEY_DELETE then s.delete
    else Ask
  }

  function PermissionGate(s: Settings, key: string, id: string, approved: set<string>): Gate {
    if s.planMode then Deny(PlanModeKey(key))
    else
      match PermissionFor(s, key)
      case Never => Deny(ForbiddenKey)
      case Ask => if id in approved then Allow else Pause([])
      case Always => Allow
  }

  /** The notes whose key has the given policy, in order. */
  function NotesAt(s: Settings, notes: seq<Note>, policy: Policy): (r: seq<Note>)
    ensures forall note :: note in r <==> note in notes && PermissionFor(s, note.key) == policy
  {
    if notes == [] then []
    else
      var last := |notes| - 1;
      assert notes == notes[..last] + [notes[last]];
      NotesAt(s, notes[..last], policy) +
      (if PermissionFor(s, notes[last].key) == policy then [notes[last]] else [])
  }

  function ProbeGate(s: Settings, id: string, notes: seq<Note>, approved: set<string>): Gate {
    if notes == [] then Allow
    else if s.planMode then Deny(PlanModeBatch(notes))
    else if NotesAt(s, notes, Never) != [] then Deny(ForbiddenBatch(NotesAt(s, notes, Never)))
    else if id !in approved && NotesAt(s, notes, Ask) != [] then Pause(NotesAt(s, notes, Ask))
    else Allow
  }

  function GateCall(s: Settings, call: Call, tool: Tool, approved: set<string>): Gate {
    if tool.gated then PermissionGate(s, tool.key, call.id, approved)
    else
      match tool.probe(call.args)
      case Some(notes) => ProbeGate(s, call.id, notes, approved)
      case None => Allow
  }

  /** The probe's verdict, collected note by note. */
  method GateProbeDecision(s: Settings, call: Call, notes: seq<Note>, approved: set<string>) returns (gate: Gate)
    ensures gate == ProbeGate(s, call.id, notes, approved)
  {
    if |notes| == 0 {
      return Allow;
    }
    if s.planMode {
      return Deny(PlanModeBatch(notes));
    }
    var paused: seq<Note>, denied: seq<Note> := [], [];
    for i := 0 to |notes|
      invariant denied == NotesAt(s, notes[..i], Never)
      invariant paused == if call.id in approved then [] else NotesAt(s, notes[..i], Ask)
    {
      assert notes[..i + 1][..i] == notes[..i];
      match PermissionFor(s, notes[i].key) {
        case Never => denied := denied + [notes[i]];
        case Ask => if call.id !in approved { paused := paused + [notes[i]]; }
        case Always =>
      }
    }
    assert notes[..|notes|] == notes;
    if |denied| > 0 {
      gate := Deny(ForbiddenBatch(denied));
    } else if |paused| > 0 {
      gate := Pause(paused);
    } else {
      gate := Allow;
    }
  }

  // ---- What the gate means, key by key ----

  /** Every permission key a call reports: the tool's own, or one for each probe note. */
  function Keys(tool: Tool, call: Call): seq<string> {
    if tool.gated then [tool.key]
    else
      match tool.probe(call.args)
      case Some(notes) => seq(|notes|, i requires 0 <= i < |notes| => notes[i].key)
      case None => []
  }

  predicate Forbidden(s: Settings, key: string) {
    s.planMode || PermissionFor(s, key) == Never
  }

  /** Safe to execute: nothing is forbidden and whatever asks was approved. */
  predicate MayRun(s: Settings, tool: Tool, call: Call, isApproved: bool) {
    forall key | key in Keys(tool, call) ::
      !Forbidden(s, key) && (PermissionFor(s, key) == Ask ==> isApproved)
  }

  lemma NoteKeys(tool: Tool, call: Call, notes: seq<Note>)
    requires !tool.gated && tool.probe(call.args) == Some(notes)
    ensures forall key :: key in Keys(tool, call) <==> exists note :: note in notes && note.key == key
  {
    var keys := Keys(tool, call);
    forall key | key in keys
      ensures exists note :: note in notes && note.key == key
    {
      var i :| 0 <= i < |keys| && keys[i] == key;
      assert notes[i] in notes;
    }
    forall note | note in notes
      ensures note.key in keys
    {
      var i :| 0 <= i < |notes| && notes[i] == note;
      assert keys[i] == note.key;
    }
  }

  /** The three verdicts, each exactly: a call is allowed when it is cleared, refused when some key is
      forbidden, and paused when nothing is forbidden but some asking key was not approved. */
  lemma GateMeansKeys(s: Settings, call: Call, tool: Tool, approved: set<string>)
    ensures GateCall(s, call, tool, approved).Allow? <==> MayRun(s, tool, call, call.id in approved)
    ensures GateCall(s, call, tool, approved).Deny? <==> exists key :: key in Keys(tool, call) && Forbidden(s, key)
  {
    var gate := GateCall(s, call, tool, approved);
    if tool.gated {
      assert tool.key in Keys(tool, call);
    } else if tool.probe(call.args).Some? {
      var notes := tool.probe(call.args).value;
      NoteKeys(tool, call, notes);
      var never, ask := NotesAt(s, notes, Never), NotesAt(s, notes, Ask);
      if notes != [] && s.planMode {
        assert notes[0] in notes;
        assert Forbidden(s, notes[0].key);
      } else if never != [] {
        assert never[0] in never;
        assert Forbidden(s, never[0].key);
      } else if ask != [] {
        assert ask[0] in ask;
        assert ask[0].key in Keys(tool, call);
      }
    }
  }

  /** Approval only turns a pause into an allow; it never changes a refusal. */
  lemma ApprovalOnlyLiftsAsk(s: Settings, call: Call, tool: Tool, approved: set<string>)
    ensures
      var gate := GateCall(s, call, tool, approved);
      var lifted := GateCall(s, call, tool, {call.id});
      if call.id in approved then gate == lifted else gate == lifted || (gate.Pause? && lifted.Allow?)
  {
  }

  lemma ApprovedNeverPauses(s: Settings, call: Call, tool: Tool, approved: set<string>)
    requires call.id in approved
    ensures !GateCall(s, call, tool, approved).Pause?
  {
  }
}
