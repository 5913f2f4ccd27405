/**
 * The append-only audit log every agent writes its results to. The backing
 * JSON file is the field `file`: `None` when the file is missing or cannot be
 * read (it then loads as an empty log), otherwise the entries it holds. Writes
 * can fail; the caller says whether the file is writable.
 */
module Audit {
  import opened Wrappers
  import opened Values

  /** One audit record. */
  datatype Entry = Entry(
    timestamp: string,
    agent: string,
    userId: Value,
    success: Value,
    data: Value,
    error: Value,
    notes: Value,
    metadata: map<string, Value>)

  /** `d.get(key, default)` on a dictionary. */
  function Lookup(d: map<string, Value>, key: string, default: Value): (v: Value)
    ensures key in d ==> v == d[key]
    ensures key !in d ==> v == default
  {
    if key in d then d[key] else default
  }

  /** The entry `save` builds for a result dictionary. */
  function EntryFor(agentName: string, result: map<string, Value>, userId: Value,
                    metadata: Option<map<string, Value>>, now: string): (e: Entry)
    ensures e.timestamp == now && e.agent == agentName && e.userId == userId
    ensures e.success == Lookup(result, "success", Null) && e.error == Lookup(result, "error", Null)
    ensures e.notes == Lookup(result, "processing_notes", List([]))
    ensures Truthy(Lookup(result, "extracted_data", Null)) ==> e.data == result["extracted_data"]
    ensures !Truthy(Lookup(result, "extracted_data", Null)) && Truthy(Lookup(result, "data", Null)) ==> e.data == result["data"]
    ensures !Truthy(Lookup(result, "extracted_data", Null)) && !Truthy(Lookup(result, "data", Null)) ==> e.data == Dict(result)
    ensures metadata.None? ==> e.metadata == map[]
    ensures metadata.Some? ==> e.metadata == metadata.value
  {
    Entry(
      now,
      agentName,
      userId,
      Lookup(result, "success", Null),
      Or(Or(Lookup(result, "extracted_data", Null), Lookup(result, "data", Null)), Dict(result)),
      Lookup(result, "error", Null),
      Lookup(result, "processing_notes", List([])),
      metadata.GetOr(map[]))
  }

  // ---------------------------------------------------------------- filters and the suffix

  /** A filter argument takes effect only when it is a non-empty string. */
  predicate Active(filter: Option<string>) {
    filter.Some? && filter.value != ""
  }

  /** Keep the entries of one agent, or of one user. */
  datatype Criterion = ByAgent(name: string) | ByUser(id: string) {
    predicate Accepts(e: Entry) {
      match this
      case ByAgent(name) => e.agent == name
      case ByUser(id) => e.userId == Str(id)
    }
  }

  /** `[e for e in entries if <criterion>]`. */
  function Select(entries: seq<Entry>, c: Criterion): (r: seq<Entry>)
    ensures |r| <= |entries|
  {
    if entries == [] then []
    else (if c.Accepts(entries[0]) then [entries[0]] else []) + Select(entries[1..], c)
  }

  /** Selecting keeps exactly the entries the criterion accepts. */
  lemma {:induction false} SelectMembers(entries: seq<Entry>, c: Criterion)
    ensures forall e :: e in Select(entries, c) <==> e in entries && c.Accepts(e)
  {
    if entries != [] {
      SelectMembers(entries[1..], c);
      assert entries == [entries[0]] + entries[1..];
    }
  }

  /** Selecting from two runs of entries selects from each, keeping their order. */
  lemma {:induction false} SelectAppend(a: seq<Entry>, b: seq<Entry>, c: Criterion)
    ensures Select(a + b, c) == Select(a, c) + Select(b, c)
  {
    if a != [] {
      var head := if c.Accepts(a[0]) then [a[0]] else [];
      assert (a + b)[0] == a[0] && (a + b)[1..] == a[1..] + b;
      calc {
        Select(a + b, c);
        head + Select(a[1..] + b, c);
        { SelectAppend(a[1..], b, c); }
        head + (Select(a[1..], c) + Select(b, c));
        (head + Select(a[1..], c)) + Select(b, c);
      }
    } else {
      assert a + b == b;
    }
  }

  /** Selecting keeps a run whose entries all match, and drops one whose entries all fail. */
  lemma {:induction false} SelectAll(entries: seq<Entry>, c: Criterion)
    ensures (forall i :: 0 <= i < |entries| ==> c.Accepts(entries[i])) ==> Select(entries, c) == entries
    ensures (forall i :: 0 <= i < |entries| ==> !c.Accepts(entries[i])) ==> Select(entries, c) == []
  {
    if entries != [] {
      SelectAll(entries[1..], c);
      assert forall i :: 1 <= i < |entries| ==> entries[1..][i - 1] == entries[i];
    }
  }

  /** Selecting twice with one criterion is selecting once. */
  lemma SelectIdempotent(entries: seq<Entry>, c: Criterion)
    ensures Select(Select(entries, c), c) == Select(entries, c)
  {
    var r := Select(entries, c);
    SelectMembers(entries, c);
    assert forall i :: 0 <= i < |r| ==> r[i] in r;
    SelectAll(r, c);
  }

  /** The two filters of `get_entries`, agent first, each applied only when given. */
  function Filtered(entries: seq<Entry>, agent: Option<string>, user: Option<string>): seq<Entry> {
    var byAgent := if Active(agent) then Select(entries, ByAgent(agent.value)) else entries;
    if Active(user) then Select(byAgent, ByUser(user.value)) else byAgent
  }

  /** The filters keep exactly the entries of the given agent and user. */
  lemma FilteredMembers(entries: seq<Entry>, agent: Option<string>, user: Option<string>)
    ensures forall e :: e in Filtered(entries, agent, user) <==>
      e in entries && (!Active(agent) || e.agent == agent.value) && (!Active(user) || e.userId == Str(user.value))
  {
    var byAgent := if Active(agent) then Select(entries, ByAgent(agent.value)) else entries;
    if Active(agent) { SelectMembers(entries, ByAgent(agent.value)); }
    if Active(user) { SelectMembers(byAgent, ByUser(user.value)); }
  }

  /** `entries[-limit:]` when `limit` is truthy, else all of them. */
  function Recent(entries: seq<Entry>, limit: Option<nat>): (r: seq<Entry>)
    ensures limit.None? || limit.value == 0 || limit.value >= |entries| ==> r == entries
    ensures limit.Some? && 0 < limit.value < |entries| ==> |r| == limit.value
    ensures r == entries[|entries| - |r|..]
  {
    match limit
    case None => entries
    case Some(n) => if n == 0 || n >= |entries| then entries else entries[|entries| - n..]
  }

  /** Filtering what was appended: the old matches, then the new entry if it matches. */
  lemma FilteredAppend(entries: seq<Entry>, e: Entry, agent: Option<string>, user: Option<string>)
    ensures Filtered(entries + [e], agent, user) == Filtered(entries, agent, user)
      + (if (!Active(agent) || e.agent == agent.value) && (!Active(user) || e.userId == Str(user.value)) then [e] else [])
  {
    var byAgent := if Active(agent) then Select(entries, ByAgent(agent.value)) else entries;
    var single := if !Active(agent) || e.agent == agent.value then [e] else [];
    if Active(agent) {
      SelectAppend(entries, [e], ByAgent(agent.value));
      assert Select([e], ByAgent(agent.value)) == single;
    }
    if Active(user) {
      SelectAppend(byAgent, single, ByUser(user.value));
      if single != [] {
        assert Select(single, ByUser(user.value)) == if e.userId == Str(user.value) then [e] else [];
      }
    }
  }

  /** After an append, the newest entry that passes the agent filter is the appended one, when it passes. */
  lemma LastAfterAppend(entries: seq<Entry>, e: Entry, agent: Option<string>)
    requires !Active(agent) || e.agent == agent.value
    ensures var m := Filtered(entries + [e], agent, None); m != [] && m[|m| - 1] == e
  {
    FilteredAppend(entries, e, agent, None);
  }

  /** An append adds one to the count of the filters it passes and nothing to the others. */
  lemma CountAfterAppend(entries: seq<Entry>, e: Entry, agent: Option<string>, user: Option<string>)
    ensures |Filtered(entries + [e], agent, user)| == |Filtered(entries, agent, user)|
      + (if (!Active(agent) || e.agent == agent.value) && (!Active(user) || e.userId == Str(user.value)) then 1 else 0)
  {
    FilteredAppend(entries, e, agent, user);
  }

  // ---------------------------------------------------------------- the log

  class AuditLog {
    /** The backing file: `None` while it is missing or unreadable. */
    var file: Option<seq<Entry>>

    /** A log over a file in the given state. */
    constructor(file: Option<seq<Entry>>)
      ensures this.file == file
    {
      this.file := file;
    }

    /** `_load()["entries"]`: a missing or unreadable file reads as an empty log. */
    function Entries(): (r: seq<Entry>)
      reads this
      ensures file.None? ==> r == []
      ensures file.Some? ==> r == file.value
    {
      file.GetOr([])
    }

    /**
     * Appends the entry built from `result` and writes the log back; the user
     * defaults to `"unknown"` and the metadata to none. When the
     * file cannot be written the source raises; here `saved` is `None` and the
     * file is left as it was.
     */
    method Save(agentName: string, result: map<string, Value>, userId: Value := Str("unknown"),
                metadata: Option<map<string, Value>> := None, now: string, writable: bool)
      returns (saved: Option<Entry>)
      modifies this
      ensures writable ==> saved == Some(EntryFor(agentName, result, userId, metadata, now))
      ensures writable ==> Entries() == old(Entries()) + [saved.value]
      ensures writable ==> GetLastEntry(None) == saved && GetLastEntry(Some(agentName)) == saved
      ensures writable ==> Count(Some(agentName)) == old(Count(Some(agentName))) + 1
      ensures !writable ==> saved.None? && file == old(file)
    {
      var entry := EntryFor(agentName, result, userId, metadata, now);
      var entries := Entries();
      ghost var before := entries;
      entries := entries + [entry];
      if writable {
        file := Some(entries);
        saved := Some(entry);
        assert Entries() == before + [entry];
        LastAfterAppend(before, entry, None);
        assert GetLastEntry(None) == saved;
        LastAfterAppend(before, entry, Some(agentName));
        assert GetLastEntry(Some(agentName)) == saved;
        CountAfterAppend(before, entry, Some(agentName), None);
      } else {
        saved := None;
      }
    }

    /** The entries of the given agent and user, in log order, cut to the `limit` most recent. */
    function GetEntries(agent: Option<string>, user: Option<string>, limit: Option<nat>): (r: seq<Entry>)
      reads this
      ensures forall e :: e in r ==> e in Entries()
      ensures forall e :: e in r && Active(agent) ==> e.agent == agent.value
      ensures forall e :: e in r && Active(user) ==> e.userId == Str(user.value)
      ensures |r| <= |Filtered(Entries(), agent, user)|
      ensures r == Filtered(Entries(), agent, user)[|Filtered(Entries(), agent, user)| - |r|..]
      ensures limit.None? || limit.value == 0 ==> r == Filtered(Entries(), agent, user)
      ensures limit.Some? && limit.value > 0 ==>
        |r| == if limit.value < |Filtered(Entries(), agent, user)| then limit.value else |Filtered(Entries(), agent, user)|
    {
      FilteredMembers(Entries(), agent, user);
      Recent(Filtered(Entries(), agent, user), limit)
    }

    /** The most recent entry of the agent (of any agent when none is given), if there is one. */
    function GetLastEntry(agent: Option<string>): (r: Option<Entry>)
      reads this
      ensures var matching := Filtered(Entries(), agent, None);
        r == if matching == [] then None else Some(matching[|matching| - 1])
    {
      var entries := GetEntries(agent, None, Some(1));
      if entries != [] then Some(entries[|entries| - 1]) else None
    }

    /** Empties the log; `false` when the file cannot be written. */
    method Clear(writable: bool) returns (cleared: bool)
      modifies this
      ensures cleared == writable
      ensures writable ==> Entries() == [] && Count(None) == 0 && GetLastEntry(None).None?
      ensures !writable ==> file == old(file)
    {
      if writable {
        file := Some([]);
      }
      cleared := writable;
    }

    /** The number of entries of the agent, or of all entries when none is given. */
    function Count(agent: Option<string>): (n: nat)
      reads this
      ensures n == |Filtered(Entries(), agent, None)| && n <= |Entries()|
      ensures !Active(agent) ==> n == |Entries()|
      ensures n == 0 <==> GetLastEntry(agent).None?
    {
      |GetEntries(agent, None, None)|
    }
  }
}
