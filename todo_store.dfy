/** The todo collection as the handlers use it through Mongoose: `find`,
    `findOneAndUpdate` and `findOneAndDelete`, each filtered by `_id` and
    `userId`. The collection is a sequence in insertion (natural) order. */
module TodoStore {
  import opened Common
  import opened TodoModel

  /** No two records share an `_id`. */
  ghost predicate UniqueIds(table: seq<Todo>)
  {
    forall i, j :: 0 <= i < j < |table| ==> table[i].id != table[j].id
  }

  /** `Todo.find({ userId: owner })`: the owner's records in natural order. */
  function Find(table: seq<Todo>, owner: string): (r: seq<Todo>)
    ensures forall t :: t in r <==> t in table && t.owner == owner
    ensures |r| <= |table|
  {
    if table == [] then []
    else (if table[0].owner == owner then [table[0]] else []) + Find(table[1..], owner)
  }

  /** The filter `{ _id: id, userId: owner }`. */
  predicate Matches(t: Todo, id: TodoId, owner: string)
  {
    t.id == id && t.owner == owner
  }

  /** Position of the first record the filter selects, if any. */
  function FirstMatch(table: seq<Todo>, id: TodoId, owner: string): (r: Option<nat>)
    ensures r.Some? ==> r.value < |table| && Matches(table[r.value], id, owner)
    ensures r.Some? ==> forall j :: 0 <= j < r.value ==> !Matches(table[j], id, owner)
    ensures r.None? <==> forall t :: t in table ==> !Matches(t, id, owner)
  {
    if table == [] then None
    else if Matches(table[0], id, owner) then Some(0)
    else match FirstMatch(table[1..], id, owner)
      case None => None
      case Some(k) => Some(k + 1)
  }

  /** What a `findOneAndDelete` returns and the collection it leaves. */
  datatype Deletion = Deletion(deleted: Option<Todo>, table: seq<Todo>)

  /** `Todo.findOneAndDelete({ _id: id, userId: owner })`. */
  function FindOneAndDelete(table: seq<Todo>, id: TodoId, owner: string): (r: Deletion)
    ensures r.deleted.None? <==> forall t :: t in table ==> !Matches(t, id, owner)
    ensures r.deleted.None? ==> r.table == table
    ensures r.deleted.Some? ==> r.deleted.value in table && Matches(r.deleted.value, id, owner)
    ensures r.deleted.Some? ==>
      |r.table| == |table| - 1 && multiset(r.table) == multiset(table) - multiset{r.deleted.value}
    ensures FirstMatch(table, id, owner).Some? ==>
      var i := FirstMatch(table, id, owner).value;
      r.deleted == Some(table[i]) && r.table == table[..i] + table[i + 1..]
  {
    match FirstMatch(table, id, owner)
    case None => Deletion(None, table)
    case Some(i) =>
      assert table == table[..i] + [table[i]] + table[i + 1..];
      Deletion(Some(table[i]), table[..i] + table[i + 1..])
  }

  /** The update document of PUT (`{ todo }`) or of PATCH (`{ completed }`).
      An absent body field is `undefined`, which Mongoose drops from the
      update, so the stored field keeps its value. */
  datatype Change = SetText(text: Option<string>) | SetCompleted(completed: Option<bool>)

  /** The record after the update; `_id`, `userId` and `createdAt` never move. */
  function Apply(t: Todo, c: Change): (r: Todo)
    ensures r.id == t.id && r.owner == t.owner && r.createdAt == t.createdAt
    ensures c.SetText? ==>
      r.completed == t.completed && r.text == (if c.text.Some? then c.text.value else t.text)
    ensures c.SetCompleted? ==>
      r.text == t.text && r.completed == (if c.completed.Some? then c.completed.value else t.completed)
  {
    match c
    case SetText(text) => if text.Some? then t.(text := text.value) else t
    case SetCompleted(completed) => if completed.Some? then t.(completed := completed.value) else t
  }

  /** What a `findOneAndUpdate` with `{ new: true }` returns and the collection it leaves. */
  datatype Update = Update(updated: Option<Todo>, table: seq<Todo>)

  /** `Todo.findOneAndUpdate({ _id: id, userId: owner }, change, { new: true })`.
      Update validators are off by default, so nothing is validated here. */
  function FindOneAndUpdate(table: seq<Todo>, id: TodoId, owner: string, c: Change): (r: Update)
    ensures r.updated.None? <==> forall t :: t in table ==> !Matches(t, id, owner)
    ensures r.updated.None? ==> r.table == table
    ensures r.updated.Some? ==> r.updated.value in r.table && Matches(r.updated.value, id, owner)
    ensures |r.table| == |table|
    ensures forall j :: 0 <= j < |table| ==>
      r.table[j] == table[j] || (Matches(table[j], id, owner) && r.table[j] == Apply(table[j], c))
    ensures FirstMatch(table, id, owner).Some? ==>
      var i := FirstMatch(table, id, owner).value;
      r.updated == Some(Apply(table[i], c)) && r.table == table[i := Apply(table[i], c)]
  {
    match FirstMatch(table, id, owner)
    case None => Update(None, table)
    case Some(i) =>
      var table' := table[i := Apply(table[i], c)];
      assert table'[i] == Apply(table[i], c);
      Update(Some(Apply(table[i], c)), table')
  }

  /** Adding a record at the end adds it to its owner's list, and only there. */
  lemma {:induction false} FindAppend(table: seq<Todo>, t: Todo, owner: string)
    ensures Find(table + [t], owner) == Find(table, owner) + (if t.owner == owner then [t] else [])
  {
    if table != [] {
      assert (table + [t])[1..] == table[1..] + [t];
      FindAppend(table[1..], t, owner);
    }
  }

  /** `find` distributes over concatenation: it keeps natural order. */
  lemma {:induction false} FindConcat(a: seq<Todo>, b: seq<Todo>, owner: string)
    ensures Find(a + b, owner) == Find(a, owner) + Find(b, owner)
  {
    if a == [] {
      assert a + b == b;
    } else {
      assert (a + b)[0] == a[0] && (a + b)[1..] == a[1..] + b;
      FindConcat(a[1..], b, owner);
    }
  }

  /** Removing a record of another owner does not change `owner`'s list. */
  lemma {:induction false} FindRemoveOther(table: seq<Todo>, i: nat, owner: string)
    requires i < |table| && table[i].owner != owner
    ensures Find(table[..i] + table[i + 1..], owner) == Find(table, owner)
  {
    if i == 0 {
      assert table[..0] + table[1..] == table[1..];
    } else {
      var rest := table[..i] + table[i + 1..];
      assert rest[0] == table[0];
      assert rest[1..] == table[1..][..i - 1] + table[1..][i..];
      FindRemoveOther(table[1..], i - 1, owner);
    }
  }

  /** Replacing a record by one with the same owner does not change the
      list of any other owner. */
  lemma {:induction false} FindReplaceOther(table: seq<Todo>, i: nat, x: Todo, owner: string)
    requires i < |table| && x.owner == table[i].owner != owner
    ensures Find(table[i := x], owner) == Find(table, owner)
  {
    if i > 0 {
      assert table[i := x][1..] == table[1..][i - 1 := x];
      FindReplaceOther(table[1..], i - 1, x, owner);
    }
  }

  /** Deleting through the owner-scoped filter never touches another owner's records. */
  lemma DeleteIsolation(table: seq<Todo>, id: TodoId, owner: string, other: string)
    requires other != owner
    ensures Find(FindOneAndDelete(table, id, owner).table, other) == Find(table, other)
  {
    var m := FirstMatch(table, id, owner);
    if m.Some? {
      FindRemoveOther(table, m.value, other);
    }
  }

  /** Updating through the owner-scoped filter never touches another owner's records. */
  lemma UpdateIsolation(table: seq<Todo>, id: TodoId, owner: string, c: Change, other: string)
    requires other != owner
    ensures Find(FindOneAndUpdate(table, id, owner, c).table, other) == Find(table, other)
  {
    var m := FirstMatch(table, id, owner);
    if m.Some? {
      FindReplaceOther(table, m.value, Apply(table[m.value], c), other);
    }
  }

  /** With unique ids, removing position `i` removes exactly the record there. */
  lemma RemoveAtMembership(table: seq<Todo>, i: nat)
    requires UniqueIds(table) && i < |table|
    ensures forall t :: t in table[..i] + table[i + 1..] <==> t in table && t != table[i]
  {
    var rest := table[..i] + table[i + 1..];
    forall t ensures t in rest <==> t in table && t != table[i] {
      if t in rest {
        var k :| 0 <= k < |rest| && rest[k] == t;
        var j := if k < i then k else k + 1;
        assert table[j] == t && j != i;
      }
      if t in table && t != table[i] {
        var j :| 0 <= j < |table| && table[j] == t;
        assert rest[if j < i then j else j - 1] == t;
      }
    }
  }

  /** With unique ids, a successful delete removes exactly that record from
      the owner's list and keeps every other one. */
  lemma DeleteFromOwnerList(table: seq<Todo>, id: TodoId, owner: string)
    requires UniqueIds(table)
    ensures var d := FindOneAndDelete(table, id, owner);
      d.deleted.Some? ==> forall t :: t in Find(d.table, owner) <==> t in Find(table, owner) && t != d.deleted.value
  {
    var d := FindOneAndDelete(table, id, owner);
    if d.deleted.Some? {
      var i := FirstMatch(table, id, owner).value;
      RemoveAtMembership(table, i);
    }
  }

  /** The owner's list around position `k`, with and without the record there. */
  lemma FindAround(table: seq<Todo>, k: nat, owner: string)
    requires k < |table| && table[k].owner == owner
    ensures Find(table, owner) == Find(table[..k], owner) + [table[k]] + Find(table[k + 1..], owner)
    ensures Find(table[..k] + table[k + 1..], owner) == Find(table[..k], owner) + Find(table[k + 1..], owner)
  {
    assert table == (table[..k] + [table[k]]) + table[k + 1..];
    FindAppend(table[..k], table[k], owner);
    FindConcat(table[..k] + [table[k]], table[k + 1..], owner);
    FindConcat(table[..k], table[k + 1..], owner);
  }

  /** A successful delete takes the deleted record out of the owner's list
      at its position and keeps the order of the rest. */
  lemma DeleteKeepsOrder(table: seq<Todo>, id: TodoId, owner: string)
    requires FirstMatch(table, id, owner).Some?
    ensures var L := Find(table, owner);
      exists j :: 0 <= j < |L| && L[j].id == id
        && Find(FindOneAndDelete(table, id, owner).table, owner) == L[..j] + L[j + 1..]
  {
    var k := FirstMatch(table, id, owner).value;
    FindAround(table, k, owner);
    var front, back := Find(table[..k], owner), Find(table[k + 1..], owner);
    var L := Find(table, owner);
    var j := |front|;
    assert L[..j] == front && L[j] == table[k] && L[j + 1..] == back;
  }

  /** Deleting keeps the ids unique. */
  lemma DeleteKeepsIdsUnique(table: seq<Todo>, id: TodoId, owner: string)
    requires UniqueIds(table)
    ensures UniqueIds(FindOneAndDelete(table, id, owner).table)
  {
    var d := FindOneAndDelete(table, id, owner);
    if d.deleted.Some? {
      var i := FirstMatch(table, id, owner).value;
      assert d.table == table[..i] + table[i + 1..];
      forall a, b | 0 <= a < b < |d.table| ensures d.table[a].id != d.table[b].id {
        var a' := if a < i then a else a + 1;
        var b' := if b < i then b else b + 1;
        assert d.table[a] == table[a'] && d.table[b] == table[b'];
      }
    }
  }
}
