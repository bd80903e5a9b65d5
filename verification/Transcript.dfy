/** Agent messages, and the tool changes the loop declares to the model:
    `_declare_tool_changes` over the replay of a transcript's system messages. */
module Transcript {
  import opened Prelude

  /** A tool declaration; `decl` is its canonical JSON, what `declarations_equal` compares. */
  datatype Tool = Tool(name: string, decl: string)

  datatype StopReason = Stop | Length | ToolUse | Error | Aborted

  datatype ToolCall = ToolCall(id: string, name: string, args: string)

  /** An absent tool field of a system message is the empty list. */
  datatype Message =
    | System(text: string, added: seq<Tool>, removed: seq<string>)
    | User(text: string)
    | Assistant(text: string, calls: seq<ToolCall>, stop: StopReason)
    | ToolResult(callId: string, toolName: string, content: string, isError: bool)
    | Custom(text: string)

  datatype Context = Context(messages: seq<Message>, tools: seq<Tool>)

  datatype Changes = Changes(added: seq<Tool>, removed: seq<string>)

  // ---- Replay: the ordered fold of the tool fields, over an insertion-ordered dictionary ----

  function Remove(tools: seq<Tool>, name: string): seq<Tool> {
    if tools == [] then []
    else if tools[0].name == name then Remove(tools[1..], name)
    else [tools[0]] + Remove(tools[1..], name)
  }

  function RemoveAll(tools: seq<Tool>, names: seq<string>): seq<Tool>
    decreases |names|
  {
    if names == [] then tools else RemoveAll(Remove(tools, names[0]), names[1..])
  }

  /** An existing name keeps its position. */
  function Put(tools: seq<Tool>, tool: Tool): seq<Tool> {
    if tools == [] then [tool]
    else if tools[0].name == tool.name then [tool] + tools[1..]
    else [tools[0]] + Put(tools[1..], tool)
  }

  function PutAll(tools: seq<Tool>, added: seq<Tool>): seq<Tool>
    decreases |added|
  {
    if added == [] then tools else PutAll(Put(tools, added[0]), added[1..])
  }

  function ReplayOne(tools: seq<Tool>, m: Message): seq<Tool> {
    if m.System? then PutAll(RemoveAll(tools, m.removed), m.added) else tools
  }

  function ReplayFrom(tools: seq<Tool>, messages: seq<Message>): seq<Tool>
    decreases |messages|
  {
    if messages == [] then tools else ReplayFrom(ReplayOne(tools, messages[0]), messages[1..])
  }

  function Replay(messages: seq<Message>): seq<Tool> {
    ReplayFrom([], messages)
  }

  // ---- The difference between two tool sets ----

  /** The last tool of that name: the value a dictionary comprehension keeps. */
  function Lookup(tools: seq<Tool>, name: string): Option<Tool> {
    if tools == [] then None
    else if tools[|tools| - 1].name == name then Some(tools[|tools| - 1])
    else Lookup(tools[..|tools| - 1], name)
  }

  /** The tools of `from` that `others` declares in the same way, or those it does not. */
  function Keep(from: seq<Tool>, others: seq<Tool>, same: bool): seq<Tool> {
    if from == [] then []
    else (if (Lookup(others, from[0].name) == Some(from[0])) == same then [from[0]] else [])
         + Keep(from[1..], others, same)
  }

  function Names(tools: seq<Tool>): seq<string> {
    if tools == [] then [] else [tools[0].name] + Names(tools[1..])
  }

  function Difference(previous: seq<Tool>, current: seq<Tool>): Changes {
    Changes(Keep(current, previous, false), Names(Keep(previous, current, false)))
  }

  // ---- _declare_tool_changes ----

  function WithChanges(m: Message, c: Changes): Message
    requires m.System?
  {
    m.(added := c.added, removed := c.removed)
  }

  /** The index of the last system message, or -1. */
  function LastSystem(messages: seq<Message>): (k: int)
    ensures -1 <= k < |messages|
    ensures k >= 0 ==> messages[k].System?
    ensures forall i :: k < i < |messages| ==> !messages[i].System?
  {
    if messages == [] then -1
    else if messages[|messages| - 1].System? then |messages| - 1
    else LastSystem(messages[..|messages| - 1])
  }

  function FirstNonSystem(messages: seq<Message>): (k: nat)
    ensures k <= |messages|
    ensures forall i :: 0 <= i < k ==> messages[i].System?
    ensures k < |messages| ==> !messages[k].System?
  {
    if messages == [] || !messages[0].System? then 0 else 1 + FirstNonSystem(messages[1..])
  }

  function Baseline(pending: seq<Message>): seq<Message> {
    var k := LastSystem(pending);
    if k == -1 then pending else pending[k := WithChanges(pending[k], Changes([], []))]
  }

  function DeclareToolChanges(context: Context, pending: seq<Message>): seq<Message> {
    var k := LastSystem(pending);
    var baseline := Baseline(pending);
    var changes := Difference(Replay(context.messages + baseline), context.tools);
    var settled := changes == Changes([], []);
    if k != -1 then
      if settled && pending[k].added == [] && pending[k].removed == [] then pending
      else baseline[k := WithChanges(pending[k], changes)]
    else if settled then pending
    else
      var at := FirstNonSystem(pending);
      pending[..at] + [System("", changes.added, changes.removed)] + pending[at..]
  }

  // ---- Distinct names, and what each replay step does to them ----

  ghost predicate DistinctNames(tools: seq<Tool>) {
    forall i, j :: 0 <= i < j < |tools| ==> tools[i].name != tools[j].name
  }

  ghost predicate Declares(tools: seq<Tool>, name: string) {
    exists i :: 0 <= i < |tools| && tools[i].name == name
  }

  lemma {:induction false} LookupFinds(tools: seq<Tool>, i: nat)
    requires DistinctNames(tools) && i < |tools|
    ensures Lookup(tools, tools[i].name) == Some(tools[i])
  {
    if i < |tools| - 1 {
      LookupFinds(tools[..|tools| - 1], i);
    }
  }

  lemma {:induction false} LookupSound(tools: seq<Tool>, name: string)
    ensures Lookup(tools, name).Some? <==> Declares(tools, name)
    ensures Lookup(tools, name).Some? ==> Lookup(tools, name).value in tools && Lookup(tools, name).value.name == name
  {
    if tools != [] && tools[|tools| - 1].name != name {
      LookupSound(tools[..|tools| - 1], name);
    }
  }

  lemma {:induction false} RemoveKeepsDistinct(tools: seq<Tool>, name: string)
    requires DistinctNames(tools)
    ensures DistinctNames(Remove(tools, name))
    ensures forall t :: t in Remove(tools, name) <==> t in tools && t.name != name
  {
    if tools != [] {
      RemoveKeepsDistinct(tools[1..], name);
      assert tools == [tools[0]] + tools[1..];
      if tools[0].name != name {
        assert forall t :: t in tools[1..] ==> t.name != tools[0].name;
      }
    }
  }

  lemma {:induction false} RemoveAllKeepsDistinct(tools: seq<Tool>, names: seq<string>)
    requires DistinctNames(tools)
    ensures DistinctNames(RemoveAll(tools, names))
    decreases |names|
  {
    if names != [] {
      RemoveKeepsDistinct(tools, names[0]);
      RemoveAllKeepsDistinct(Remove(tools, names[0]), names[1..]);
    }
  }

  lemma {:induction false} PutMembers(tools: seq<Tool>, tool: Tool)
    requires DistinctNames(tools)
    ensures forall t :: t in Put(tools, tool) ==> t == tool || (t in tools && t.name != tool.name)
  {
    if tools != [] {
      assert tools == [tools[0]] + tools[1..];
      assert forall t :: t in tools[1..] ==> t.name != tools[0].name;
      if tools[0].name != tool.name {
        PutMembers(tools[1..], tool);
      }
    }
  }

  lemma {:induction false} PutKeepsDistinct(tools: seq<Tool>, tool: Tool)
    requires DistinctNames(tools)
    ensures DistinctNames(Put(tools, tool))
  {
    if tools != [] {
      var rest := Put(tools[1..], tool);
      assert forall t :: t in tools[1..] ==> t.name != tools[0].name;
      if tools[0].name == tool.name {
        AppendDistinctNames([tool], tools[1..]);
      } else {
        PutKeepsDistinct(tools[1..], tool);
        PutMembers(tools[1..], tool);
        AppendDistinctNames([tools[0]], rest);
      }
    }
  }

  lemma {:induction false} PutAppends(tools: seq<Tool>, tool: Tool)
    requires !Declares(tools, tool.name)
    ensures Put(tools, tool) == tools + [tool]
  {
    if tools != [] {
      assert forall i :: 0 <= i < |tools[1..]| ==> tools[1..][i] == tools[i + 1];
      PutAppends(tools[1..], tool);
    }
  }

  lemma {:induction false} PutAllKeepsDistinct(tools: seq<Tool>, added: seq<Tool>)
    requires DistinctNames(tools)
    ensures DistinctNames(PutAll(tools, added))
    decreases |added|
  {
    if added != [] {
      PutKeepsDistinct(tools, added[0]);
      PutAllKeepsDistinct(Put(tools, added[0]), added[1..]);
    }
  }

  lemma {:induction false} ReplayKeepsDistinct(tools: seq<Tool>, messages: seq<Message>)
    requires DistinctNames(tools)
    ensures DistinctNames(ReplayFrom(tools, messages))
    decreases |messages|
  {
    if messages != [] {
      var m := messages[0];
      if m.System? {
        RemoveAllKeepsDistinct(tools, m.removed);
        PutAllKeepsDistinct(RemoveAll(tools, m.removed), m.added);
      }
      ReplayKeepsDistinct(ReplayOne(tools, m), messages[1..]);
    }
  }

  lemma {:induction false} ReplayAppend(tools: seq<Tool>, a: seq<Message>, b: seq<Message>)
    ensures ReplayFrom(tools, a + b) == ReplayFrom(ReplayFrom(tools, a), b)
    decreases |a|
  {
    if a == [] {
      assert a + b == b;
    } else {
      assert (a + b)[1..] == a[1..] + b;
      ReplayAppend(ReplayOne(tools, a[0]), a[1..], b);
    }
  }

  lemma {:induction false} ReplayIgnoresOthers(tools: seq<Tool>, messages: seq<Message>)
    requires forall m :: m in messages ==> !m.System?
    ensures ReplayFrom(tools, messages) == tools
  {
    if messages != [] {
      ReplayIgnoresOthers(tools, messages[1..]);
    }
  }

  // ---- Applying a difference ----

  lemma {:induction false} KeepMembers(from: seq<Tool>, others: seq<Tool>, same: bool)
    ensures forall t :: t in Keep(from, others, same) <==> t in from && (Lookup(others, t.name) == Some(t)) == same
    ensures DistinctNames(from) ==> DistinctNames(Keep(from, others, same))
  {
    if from != [] {
      KeepMembers(from[1..], others, same);
      assert from == [from[0]] + from[1..];
      if DistinctNames(from) {
        assert forall t :: t in from[1..] ==> t.name != from[0].name;
      }
    }
  }

  lemma {:induction false} RemoveAllAbsent(tools: seq<Tool>, names: seq<string>, t: Tool)
    requires t.name !in names
    ensures RemoveAll([t] + tools, names) == [t] + RemoveAll(tools, names)
    decreases |names|
  {
    if names != [] {
      assert ([t] + tools)[1..] == tools;
      assert Remove([t] + tools, names[0]) == [t] + Remove(tools, names[0]);
      RemoveAllAbsent(Remove(tools, names[0]), names[1..], t);
    }
  }

  lemma {:induction false} RemoveUndeclared(tools: seq<Tool>, name: string)
    requires !Declares(tools, name)
    ensures Remove(tools, name) == tools
  {
    if tools != [] {
      assert forall i :: 0 <= i < |tools[1..]| ==> tools[1..][i] == tools[i + 1];
      RemoveUndeclared(tools[1..], name);
      assert tools[0].name != name;
      assert [tools[0]] + tools[1..] == tools;
    }
  }

  lemma {:induction false} NamesMembers(tools: seq<Tool>)
    ensures forall name :: name in Names(tools) <==> exists t :: t in tools && t.name == name
  {
    if tools != [] {
      NamesMembers(tools[1..]);
      assert tools == [tools[0]] + tools[1..];
    }
  }

  /** Removing every declaration that changed leaves exactly those that did not, in order. */
  lemma {:induction false} RemovalsRetain(previous: seq<Tool>, current: seq<Tool>)
    requires DistinctNames(previous)
    ensures RemoveAll(previous, Names(Keep(previous, current, false))) == Keep(previous, current, true)
  {
    if previous != [] {
      var t, rest := previous[0], previous[1..];
      RemovalsRetain(rest, current);
      KeepMembers(rest, current, false);
      var gone := Keep(rest, current, false);
      assert previous == [t] + rest;
      assert forall x :: x in rest ==> x.name != t.name;
      NamesMembers(gone);
      if Lookup(current, t.name) == Some(t) {
        assert Keep(previous, current, false) == gone;
        RemoveAllAbsent(rest, Names(gone), t);
      } else {
        RemoveFirst(t, rest, gone);
        assert Keep(previous, current, false) == [t] + gone;
      }
    }
  }

  lemma {:induction false} RemoveFirst(t: Tool, rest: seq<Tool>, gone: seq<Tool>)
    requires !Declares(rest, t.name)
    ensures RemoveAll([t] + rest, Names([t] + gone)) == RemoveAll(rest, Names(gone))
  {
    assert ([t] + gone)[1..] == gone && ([t] + rest)[1..] == rest;
    assert Names([t] + gone) == [t.name] + Names(gone);
    assert ([t.name] + Names(gone))[1..] == Names(gone);
    RemoveUndeclared(rest, t.name);
  }

  lemma {:induction false} PutAllAppends(tools: seq<Tool>, added: seq<Tool>)
    requires DistinctNames(tools + added)
    ensures PutAll(tools, added) == tools + added
    decreases |added|
  {
    if added == [] {
      assert tools + added == tools;
    } else {
      var whole := tools + added;
      assert DistinctNames(tools) by {
        assert forall i :: 0 <= i < |tools| ==> whole[i] == tools[i];
      }
      assert !Declares(tools, added[0].name) by {
        assert whole[|tools|] == added[0];
        assert forall i :: 0 <= i < |tools| ==> whole[i] == tools[i];
      }
      PutAppends(tools, added[0]);
      assert tools + [added[0]] + added[1..] == whole;
      PutAllAppends(tools + [added[0]], added[1..]);
    }
  }

  lemma {:induction false} AppendDistinctNames(a: seq<Tool>, b: seq<Tool>)
    requires DistinctNames(a) && DistinctNames(b)
    requires forall x, y :: x in a && y in b ==> x.name != y.name
    ensures DistinctNames(a + b)
  {
    forall i, j | 0 <= i < j < |a + b| ensures (a + b)[i].name != (a + b)[j].name {
      if i < |a| && j >= |a| {
        assert a[i] in a && b[j - |a|] in b;
      }
    }
  }

  /** Applying the difference: the unchanged declarations in their old order, then the new ones
      in the order of `current`. */
  lemma {:induction false} ApplyDifference(previous: seq<Tool>, current: seq<Tool>, m: Message)
    requires DistinctNames(previous) && DistinctNames(current)
    requires m.System? && Changes(m.added, m.removed) == Difference(previous, current)
    ensures ReplayOne(previous, m) == Keep(previous, current, true) + Keep(current, previous, false)
    ensures DistinctNames(ReplayOne(previous, m))
  {
    var kept, added := Keep(previous, current, true), Keep(current, previous, false);
    RemovalsRetain(previous, current);
    KeepMembers(previous, current, true);
    KeepMembers(current, previous, false);
    forall x, y | x in kept && y in added ensures x.name != y.name {
      if x.name == y.name {
        var i :| 0 <= i < |current| && current[i] == y;
        LookupFinds(current, i);
        var j :| 0 <= j < |previous| && previous[j] == x;
        LookupFinds(previous, j);
      }
    }
    AppendDistinctNames(kept, added);
    PutAllAppends(kept, added);
  }

  /** The same declarations under the same names, whatever the order. */
  ghost predicate SameTools(a: seq<Tool>, b: seq<Tool>) {
    && DistinctNames(a) && DistinctNames(b)
    && forall t :: t in a <==> t in b
  }

  lemma {:induction false} KeptAndAddedAreCurrent(previous: seq<Tool>, current: seq<Tool>)
    requires DistinctNames(previous) && DistinctNames(current)
    requires DistinctNames(Keep(previous, current, true) + Keep(current, previous, false))
    ensures SameTools(Keep(previous, current, true) + Keep(current, previous, false), current)
  {
    KeepMembers(previous, current, true);
    KeepMembers(current, previous, false);
    var result := Keep(previous, current, true) + Keep(current, previous, false);
    forall t ensures t in result <==> t in current {
      LookupSound(current, t.name);
      LookupSound(previous, t.name);
      if t in current {
        var i :| 0 <= i < |current| && current[i] == t;
        LookupFinds(current, i);
      }
    }
  }

  lemma {:induction false} LookupMember(tools: seq<Tool>, t: Tool)
    requires DistinctNames(tools)
    ensures Lookup(tools, t.name) == Some(t) <==> t in tools
  {
    LookupSound(tools, t.name);
    if t in tools {
      var i :| 0 <= i < |tools| && tools[i] == t;
      LookupFinds(tools, i);
    }
  }

  lemma {:induction false} KeepsNothing(from: seq<Tool>, others: seq<Tool>)
    requires DistinctNames(others)
    ensures Keep(from, others, false) == [] <==> forall t :: t in from ==> t in others
  {
    KeepMembers(from, others, false);
    forall t: Tool ensures Lookup(others, t.name) == Some(t) <==> t in others {
      LookupMember(others, t);
    }
    var kept := Keep(from, others, false);
    assert kept == [] <==> forall t :: t !in kept by {
      assert kept != [] ==> kept[0] in kept;
    }
  }

  /** Tool sets that agree as dictionaries differ by nothing, and the other way round. */
  lemma {:induction false} NoDifference(previous: seq<Tool>, current: seq<Tool>)
    requires DistinctNames(previous) && DistinctNames(current)
    ensures Difference(previous, current) == Changes([], []) <==> SameTools(previous, current)
  {
    KeepsNothing(previous, current);
    KeepsNothing(current, previous);
    assert Names(Keep(previous, current, false)) == [] <==> Keep(previous, current, false) == [];
  }

  // ---- The main results about _declare_tool_changes ----

  /** The tools the transcript declares once the caller's messages are in, their last system
      message stripped of its own tool changes. */
  function Before(context: Context, pending: seq<Message>): seq<Tool> {
    Replay(context.messages + Baseline(pending))
  }

  lemma {:induction false} BaselineReplay(context: Context, pending: seq<Message>)
    ensures var k := LastSystem(pending);
            k >= 0 ==> Before(context, pending) == Replay(context.messages + pending[..k])
  {
    var k := LastSystem(pending);
    if k >= 0 {
      var b := Baseline(pending);
      var head := context.messages + pending[..k];
      assert context.messages + b == head + [b[k]] + pending[k + 1..];
      ReplayLastSystem(head, b[k], pending[k + 1..]);
    }
  }

  /** Replaying the committed transcript applies the difference to the tools declared before. */
  lemma {:induction false} DeclaredWithSystem(context: Context, pending: seq<Message>, update: Message)
    requires LastSystem(pending) >= 0
    requires update.System?
    requires Changes(update.added, update.removed) == Difference(Before(context, pending), context.tools)
    ensures Replay(context.messages + DeclareToolChanges(context, pending))
            == ReplayOne(Before(context, pending), update)
  {
    var k := LastSystem(pending);
    BaselineReplay(context, pending);
    DeclaredShape(context, pending);
    SpliceReplay(context.messages, pending, DeclareToolChanges(context, pending), k, update);
  }

  lemma {:induction false} SpliceReplay(before: seq<Message>, pending: seq<Message>, result: seq<Message>, k: nat,
                                        update: Message)
    requires k < |pending| == |result| && result[..k] == pending[..k] && result[k + 1..] == pending[k + 1..]
    requires forall i :: k < i < |pending| ==> !pending[i].System?
    requires result[k].System? && update.System?
    requires result[k].added == update.added && result[k].removed == update.removed
    ensures Replay(before + result) == ReplayOne(Replay(before + pending[..k]), update)
  {
    var head, last := before + pending[..k], result[k];
    assert before + result == head + [last] + pending[k + 1..] by {
      assert result == pending[..k] + [last] + pending[k + 1..];
    }
    ReplayLastSystem(head, last, pending[k + 1..]);
    assert ReplayOne(Replay(head), last) == ReplayOne(Replay(head), update);
  }

  lemma {:induction false} DeclaredShape(context: Context, pending: seq<Message>)
    requires LastSystem(pending) >= 0
    ensures var k := LastSystem(pending);
            var result := DeclareToolChanges(context, pending);
            && |result| == |pending| && result[..k] == pending[..k] && result[k + 1..] == pending[k + 1..]
            && result[k].System? && result[k].text == pending[k].text
            && Changes(result[k].added, result[k].removed) == Difference(Before(context, pending), context.tools)
  {
  }

  lemma {:induction false} ReplayLastSystem(head: seq<Message>, last: Message, tail: seq<Message>)
    requires forall m :: m in tail ==> !m.System?
    ensures Replay(head + [last] + tail) == ReplayOne(Replay(head), last)
  {
    ReplayAppend([], head + [last], tail);
    ReplayAppend([], head, [last]);
    ReplayIgnoresOthers(Replay(head + [last]), tail);
    assert [last][1..] == [];
  }

  lemma {:induction false} DeclaredWithoutSystem(context: Context, pending: seq<Message>, update: Message)
    requires LastSystem(pending) == -1
    requires update == System("", Difference(Before(context, pending), context.tools).added,
                              Difference(Before(context, pending), context.tools).removed)
    ensures Replay(context.messages + DeclareToolChanges(context, pending))
            == ReplayOne(Before(context, pending), update)
  {
    forall m | m in pending ensures !m.System? {
      var i :| 0 <= i < |pending| && pending[i] == m;
    }
    assert FirstNonSystem(pending) == 0;
    var result := DeclareToolChanges(context, pending);
    ReplayAppend([], context.messages, pending);
    ReplayIgnoresOthers(Replay(context.messages), pending);
    if result != pending {
      assert result == [update] + pending;
      assert result[1..] == pending;
      ReplayAppend([], context.messages, result);
      ReplayIgnoresOthers(ReplayOne(Replay(context.messages), update), pending);
    }
  }

  /** What a replay of the committed transcript yields, as an ordered list: the declarations that
      did not change, in transcript order, then the added ones in the order of `context.tools`. */
  lemma {:induction false} DeclaredReplay(context: Context, pending: seq<Message>)
    requires DistinctNames(context.tools)
    ensures var before := Before(context, pending);
            Replay(context.messages + DeclareToolChanges(context, pending))
            == Keep(before, context.tools, true) + Keep(context.tools, before, false)
    ensures SameTools(Replay(context.messages + DeclareToolChanges(context, pending)), context.tools)
  {
    var before := Before(context, pending);
    var changes := Difference(before, context.tools);
    var update := System("", changes.added, changes.removed);
    ReplayKeepsDistinct([], context.messages + Baseline(pending));
    ApplyDifference(before, context.tools, update);
    if LastSystem(pending) >= 0 {
      DeclaredWithSystem(context, pending, update);
    } else {
      DeclaredWithoutSystem(context, pending, update);
    }
    KeptAndAddedAreCurrent(before, context.tools);
  }

  /** The replay has exactly the order of `context.tools` if and only if the declarations that did
      not change form a prefix of it; a caller can compare the two lists before the call. */
  lemma {:induction false} DeclaredReplayInOrder(context: Context, pending: seq<Message>)
    requires DistinctNames(context.tools)
    ensures Replay(context.messages + DeclareToolChanges(context, pending)) == context.tools
            <==> Keep(Before(context, pending), context.tools, true) <= context.tools
  {
    DeclaredReplay(context, pending);
    var before, tools := Before(context, pending), context.tools;
    var kept, added := Keep(before, tools, true), Keep(tools, before, false);
    ReplayKeepsDistinct([], context.messages + Baseline(pending));
    if kept <= tools {
      KeepAfterPrefix(before, tools, |kept|);
    }
    PrefixDecides(kept, added, tools);
  }

  lemma {:induction false} PrefixDecides(a: seq<Tool>, b: seq<Tool>, whole: seq<Tool>)
    requires a <= whole ==> b == whole[|a|..]
    ensures a + b == whole <==> a <= whole
  {
    assert a <= a + b;
  }

  /** When the first `n` tools are exactly the unchanged ones, the added ones are the rest. */
  lemma {:induction false} KeepAfterPrefix(previous: seq<Tool>, current: seq<Tool>, n: nat)
    requires DistinctNames(previous) && DistinctNames(current)
    requires n <= |current| && Keep(previous, current, true) == current[..n]
    ensures Keep(current, previous, false) == current[n..]
  {
    KeepMembers(previous, current, true);
    forall i | 0 <= i < |current|
      ensures Lookup(previous, current[i].name) == Some(current[i]) <==> i < n
    {
      LookupSound(previous, current[i].name);
      LookupFinds(current, i);
      if i < n {
        assert current[i] == current[..n][i];
        var j :| 0 <= j < |previous| && previous[j] == current[i];
        LookupFinds(previous, j);
      } else {
        assert forall j :: 0 <= j < n ==> current[..n][j].name != current[i].name;
      }
    }
    KeepFromIndex(current, previous, n);
  }

  lemma {:induction false} KeepFromIndex(from: seq<Tool>, others: seq<Tool>, n: nat)
    requires n <= |from|
    requires forall i :: 0 <= i < |from| ==> (Lookup(others, from[i].name) == Some(from[i]) <==> i < n)
    ensures Keep(from, others, false) == from[n..]
  {
    if from != [] {
      assert forall i :: 0 <= i < |from[1..]| ==> from[1..][i] == from[i + 1];
      KeepFromIndex(from[1..], others, if n > 0 then n - 1 else 0);
      assert n > 0 ==> from[1..][n - 1..] == from[n..];
      assert n == 0 ==> [from[0]] + from[1..] == from;
    }
  }

  /** The order is not always kept: two tools that swap places are declared as no change. */
  lemma {:induction false} DeclaredOrderCanDiffer(a: Tool, b: Tool)
    requires a.name != b.name
    ensures var context := Context([System("", [a, b], [])], [b, a]);
            Replay(context.messages + DeclareToolChanges(context, [])) == [a, b]
  {
    var context := Context([System("", [a, b], [])], [b, a]);
    assert Put([a], b) == [a] + Put([], b);
    assert PutAll([], [a, b]) == PutAll([a], [b]) == [a, b] by {
      assert [a, b][1..] == [b];
      assert [b][1..] == [];
    }
    assert context.messages + [] == context.messages;
    assert ReplayOne([], context.messages[0]) == [a, b];
    assert Replay(context.messages) == ReplayFrom([a, b], context.messages[1..]) == [a, b];
    assert SameTools([a, b], [b, a]);
    NoDifference([a, b], [b, a]);
  }

  /** A message up to the tool fields of a system message. */
  function Erase(m: Message): Message {
    if m.System? then m.(added := [], removed := []) else m
  }

  function EraseAll(messages: seq<Message>): seq<Message> {
    seq(|messages|, i requires 0 <= i < |messages| => Erase(messages[i]))
  }

  /** The caller's messages come back in their order, at most their system messages' tool fields
      rewritten, with at most one message inserted before them and only when none is a system message. */
  lemma {:induction false} DeclareKeepsMessages(context: Context, pending: seq<Message>)
    ensures var result := DeclareToolChanges(context, pending);
            if |result| == |pending| then
              EraseAll(result) == EraseAll(pending)
            else
              && (forall m :: m in pending ==> !m.System?)
              && |result| == |pending| + 1
              && result[0].System? && result[0].text == ""
              && result[1..] == pending
  {
    var result := DeclareToolChanges(context, pending);
    var k := LastSystem(pending);
    if k == -1 {
      assert FirstNonSystem(pending) == 0;
      if |result| != |pending| {
        assert result[1..] == pending;
      }
    }
  }

  /** Once the result is committed nothing is left to declare. */
  lemma {:induction false} DeclareSettles(context: Context, pending: seq<Message>)
    requires DistinctNames(context.tools)
    ensures var result := DeclareToolChanges(context, pending);
            DeclareToolChanges(context.(messages := context.messages + result), []) == []
  {
    var result := DeclareToolChanges(context, pending);
    var after := context.(messages := context.messages + result);
    DeclaredReplay(context, pending);
    assert after.messages + [] == after.messages;
    NoDifference(Replay(after.messages), context.tools);
  }
}
