/** The table of synchronization objects and the ids it hands out (sync.c:8-51, 547-621). */
module SyncTable {
  import opened Hardware
  import M = KernelModel

  const MAX_SYNCS := M.MAX_SYNCS

  /** Invalid stands for every other value of sync_type_t. */
  datatype Kind = PIPE | LOCK | CVAR | Invalid

  datatype SyncObj<T> = SyncObj(kind: Kind, id: int, body: T)

  /** How many of the flags are set. */
  function Count(s: seq<bool>): (n: nat)
    ensures n <= |s|
  {
    if s == [] then 0 else Count(s[..|s| - 1]) + if s[|s| - 1] then 1 else 0
  }

  lemma {:induction false} CountUpdate(s: seq<bool>, i: nat, v: bool)
    requires i < |s| && s[i] != v
    ensures Count(s[i := v]) == Count(s) + if v then 1 else -1
  {
    var last := |s| - 1;
    if i < last {
      assert s[i := v][..last] == s[..last][i := v];
      CountUpdate(s[..last], i, v);
    } else {
      assert s[i := v][..last] == s[..last];
    }
  }

  /** The count falls short of the size exactly when some flag is clear. */
  lemma {:induction false} CountIsFull(s: seq<bool>)
    ensures Count(s) == |s| <==> forall i :: 0 <= i < |s| ==> s[i]
  {
    if s != [] {
      CountIsFull(s[..|s| - 1]);
      if forall i :: 0 <= i < |s| ==> s[i] {
        assert s[|s| - 1];
        assert forall i :: 0 <= i < |s| - 1 ==> s[..|s| - 1][i] == s[i];
      }
    }
  }

  function Keys<T>(s: seq<Option<T>>): set<int> {
    set i | 0 <= i < |s| && s[i].Some?
  }

  lemma {:induction false} CountIsSize<T>(used: seq<bool>, slots: seq<Option<T>>)
    requires |used| == |slots| && forall i :: 0 <= i < |used| ==> (used[i] <==> slots[i].Some?)
    ensures |Keys(slots)| == Count(used)
  {
    if used != [] {
      var n := |used| - 1;
      CountIsSize(used[..n], slots[..n]);
      assert Keys(slots) == Keys(slots[..n]) + if used[n] then {n} else {};
    }
  }

  class Table<T(0)> {
    const idUsed: array<bool>
    const syncTable: array<Option<SyncObj<T>>>
    var globalSyncCounter: int

    /** The counter counts, and ids are used exactly where the table is filled. */
    ghost predicate Valid()
      reads this, idUsed, syncTable
    {
      && Counted()
      && syncTable.Length == MAX_SYNCS
      && forall i :: 0 <= i < MAX_SYNCS ==> (idUsed[i] <==> syncTable[i].Some?) && SlotOk(syncTable[i], i)
    }

    ghost predicate SlotOk(o: Option<SyncObj<T>>, i: int) {
      o.Some? ==> o.value.id == i && o.value.kind != Invalid
    }

    ghost predicate Counted()
      reads this, idUsed
    {
      idUsed.Length == MAX_SYNCS && globalSyncCounter == Count(idUsed[..])
    }

    ghost function Contents(): map<int, SyncObj<T>>
      reads syncTable
    {
      map i | 0 <= i < syncTable.Length && syncTable[i].Some? :: syncTable[i].value
    }

    /** What callers compare with MAX_SYNCS is the number of objects (sync.c:72, 292, 397). */
    lemma CounterIsSize()
      requires Valid()
      ensures globalSyncCounter == |Contents()|
    {
      CountIsSize(idUsed[..], syncTable[..]);
      assert Contents().Keys == Keys(syncTable[..]);
      assert |Contents()| == |Contents().Keys|;
    }

    constructor ()
      ensures Valid() && Contents() == map[] && fresh(idUsed) && fresh(syncTable)
    {
      idUsed := new bool[MAX_SYNCS](i => false);
      syncTable := new Option<SyncObj<T>>[MAX_SYNCS](i => None);
      globalSyncCounter := 0;
      new;
      NoneSet(idUsed[..]);
    }

    lemma {:induction false} NoneSet(s: seq<bool>)
      requires forall i :: 0 <= i < |s| ==> !s[i]
      ensures Count(s) == 0
    {
      if s != [] { NoneSet(s[..|s| - 1]); }
    }

    /** GetNewID (sync.c:594-608): the lowest id not in use, or ERROR when the counter is at its limit. */
    method GetNewID() returns (id: int)
      requires Counted()
      modifies this`globalSyncCounter, idUsed
      ensures Counted() && (id == ERROR <==> old(globalSyncCounter) == MAX_SYNCS)
      ensures if id == ERROR then idUsed[..] == old(idUsed[..])
              else
                && 0 <= id < MAX_SYNCS && !old(idUsed[id]) && idUsed[..] == old(idUsed[..])[id := true]
                && forall i :: 0 <= i < id ==> old(idUsed[i])
    {
      CountIsFull(idUsed[..]);
      var i := 0;
      while i < MAX_SYNCS
        invariant 0 <= i <= MAX_SYNCS && forall j :: 0 <= j < i ==> idUsed[..][j]
      {
        if !idUsed[i] {
          CountUpdate(idUsed[..], i, true);
          assert !idUsed[..][i];
          idUsed[i] := true;
          assert idUsed[..] == old(idUsed[..])[i := true];
          globalSyncCounter := globalSyncCounter + 1;
          return i;
        }
        i := i + 1;
      }
      return ERROR;
    }

    /** FreeID (sync.c:610-621). */
    method FreeID(id: int)
      requires Counted()
      modifies this`globalSyncCounter, idUsed
      ensures Counted()
      ensures idUsed[..] == if 0 <= id < MAX_SYNCS && old(idUsed[id]) then old(idUsed[..])[id := false]
              else old(idUsed[..])
    {
      if 0 <= id < MAX_SYNCS && idUsed[id] {
        CountUpdate(idUsed[..], id, false);
        idUsed[id] := false;
        assert idUsed[..] == old(idUsed[..])[id := false];
        globalSyncCounter := globalSyncCounter - 1;
      }
    }

    ghost predicate LowestFree(c: map<int, SyncObj<T>>, id: int) {
      0 <= id < MAX_SYNCS && id !in c && forall i :: 0 <= i < id ==> i in c
    }

    /** InitSyncObject behind its callers' check: an id is always found, and an object of no valid
        kind leaves the table and the counter as they were. */
    method InitSyncObject(kind: Kind, body: T) returns (rc: int)
      requires Valid() && globalSyncCounter < MAX_SYNCS
      modifies this`globalSyncCounter, idUsed, syncTable
      ensures Valid() && (rc == ERROR <==> kind == Invalid)
      ensures if kind == Invalid then Contents() == old(Contents()) && globalSyncCounter == old(globalSyncCounter)
              else LowestFree(old(Contents()), rc) && Contents() == old(Contents())[rc := SyncObj(kind, rc, body)]
    {
      var id := GetNewID();
      if kind == Invalid {
        FreeID(id);
        assert idUsed[..] == old(idUsed[..]);
        return ERROR;
      }
      assert old(forall i :: 0 <= i < MAX_SYNCS ==> (i in Contents() <==> idUsed[..][i]));
      assert forall i :: 0 <= i < MAX_SYNCS ==> idUsed[i] == idUsed[..][i] == (i == id || old(idUsed[i]));
      syncTable[id] := Some(SyncObj(kind, id, body));
      return id;
    }

    /** SyncInitPipe, SyncInitLock, SyncInitCvar (sync.c:69-99, 290-316, 395-420). */
    method SyncInit(kind: Kind, body: T) returns (rc: int, id: int)
      requires Valid() && kind != Invalid
      modifies this`globalSyncCounter, idUsed, syncTable
      ensures Valid()
      ensures if |old(Contents())| >= MAX_SYNCS then rc == ERROR && Contents() == old(Contents())
              else
                && rc == SUCCESS && LowestFree(old(Contents()), id)
                && Contents() == old(Contents())[id := SyncObj(kind, id, body)]
    {
      CounterIsSize();
      if globalSyncCounter >= MAX_SYNCS {
        return ERROR, ERROR;
      }
      id := InitSyncObject(kind, body);
      return SUCCESS, id;
    }

    /** GetCheckSync (sync.c:53-67).  A mismatch of kinds is noticed and let pass. */
    method GetCheckSync(id: int, expected: Kind) returns (rc: int, out: Option<SyncObj<T>>)
      requires Valid()
      ensures if id in Contents() then rc == SUCCESS && out == Some(Contents()[id]) else rc == ERROR && out == None
    {
      if id < 0 || id >= MAX_SYNCS || syncTable[id].None? {
        return ERROR, None;
      }
      return SUCCESS, syncTable[id];
    }

    /** SyncReclaim (sync.c:547-592), with the object's queues left aside. */
    method SyncReclaim(id: int) returns (rc: int)
      requires Valid()
      modifies this`globalSyncCounter, idUsed, syncTable
      ensures Valid() && rc == if id in old(Contents()) then SUCCESS else ERROR
      ensures Contents() == old(Contents()) - {id}
    {
      if id < 0 || id >= MAX_SYNCS || syncTable[id].None? {
        assert id !in Contents();
        return ERROR;
      }
      if syncTable[id].value.kind == Invalid {
        return ERROR;
      }
      assert idUsed[id];
      FreeID(id);
      assert forall i :: 0 <= i < MAX_SYNCS ==> idUsed[i] == idUsed[..][i] == (i != id && old(idUsed[i]));
      syncTable[id] := None;
      return SUCCESS;
    }

    /** The id the kernel model gives a new object is the one GetNewID finds. */
    lemma {:induction false} SameIdAsModel(k: M.Kernel, id: int, i: nat)
      requires Valid() && Contents().Keys == k.sync.Keys && LowestFree(Contents(), id) && i <= id
      ensures M.FreeId(k, i) == id
      decreases id - i
    {
      if i < id {
        assert i in Contents();
        SameIdAsModel(k, id, i + 1);
      }
    }
  }
}
