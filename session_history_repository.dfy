/**
 * Loading and saving the focus-session history. `load` keeps the stored array
 * entries that are objects with a string `completedAt`, in order, and
 * normalises each one: a falsy `id` is replaced by a fresh one and
 * `focusMinutes` is coerced with `Number(x) || 0`. Anything other than an
 * array loads as the empty history. The legacy build's repository is the same
 * code.
 */
module SessionHistoryRepository {
  import opened Wrappers
  import opened JsValues
  import opened Constants
  import opened Storage

  /** The filter: `entry && typeof entry.completedAt === 'string'`. */
  predicate Keep(entry: Json)
  {
    Truthy(entry) && Field(entry, "completedAt").Some? && Field(entry, "completedAt").value.JStr?
  }

  /** The entries that pass the filter, in their stored order. */
  function Survivors(items: seq<Json>): (r: seq<Json>)
    ensures |r| <= |items|
    ensures forall e :: e in r ==> e in items && Keep(e)
    ensures forall e :: e in items && Keep(e) ==> e in r
  {
    if items == [] then []
    else (if Keep(items[0]) then [items[0]] else []) + Survivors(items[1..])
  }

  /**
   * The map step for one surviving entry; `newId` stands for the value
   * `crypto.randomUUID()` would return.
   */
  function Normalize(entry: Json, newId: string): (r: SessionEntry)
    requires Keep(entry)
    ensures Truthy(Field(entry, "id").GetOr(JNull)) ==> r.id == Field(entry, "id").value
    ensures !Truthy(Field(entry, "id").GetOr(JNull)) ==> r.id == JStr(newId)
    ensures Field(entry, "completedAt") == Some(JStr(r.completedAt))
    ensures r.focusMinutes == 0 <==> !Usable(NumberOf(Field(entry, "focusMinutes")))
    ensures r.focusMinutes != 0 ==> NumberOf(Field(entry, "focusMinutes")) == Finite(r.focusMinutes)
  {
    var id := Field(entry, "id").GetOr(JNull);
    SessionEntry(
      if Truthy(id) then id else JStr(newId),
      Field(entry, "completedAt").value.s,
      OrDefault(NumberOf(Field(entry, "focusMinutes")), 0))
  }

  /** The stored value `load` works on, `[]` when nothing parsable is stored. */
  function Raw(stored: Stored): Json
  {
    GetJson(stored, JArr([]))
  }

  /**
   * `load()`. `freshId(k)` is the id generated for the `k`-th surviving entry
   * when it has none of its own.
   */
  function Load(stored: Stored, freshId: nat -> string): (r: seq<SessionEntry>)
    ensures !Raw(stored).JArr? ==> r == []
    ensures Raw(stored).JArr? ==>
      var kept := Survivors(Raw(stored).items);
      |r| == |kept| &&
      forall k :: 0 <= k < |r| ==> r[k] == Normalize(kept[k], freshId(k))
  {
    var raw := Raw(stored);
    if !raw.JArr? then []
    else
      var kept := Survivors(raw.items);
      seq(|kept|, k requires 0 <= k < |kept| => Normalize(kept[k], freshId(k)))
  }

  /** Filtering a concatenation filters each part: the survivors keep their order. */
  lemma {:induction false} SurvivorsAppend(a: seq<Json>, b: seq<Json>)
    ensures Survivors(a + b) == Survivors(a) + Survivors(b)
  {
    if a == [] {
      assert a + b == b;
    } else {
      assert (a + b)[0] == a[0] && (a + b)[1..] == a[1..] + b;
      SurvivorsAppend(a[1..], b);
    }
  }

  /** Entries that all pass the filter are kept as they are. */
  lemma {:induction false} SurvivorsOfWellFormed(items: seq<Json>)
    requires forall i :: 0 <= i < |items| ==> Keep(items[i])
    ensures Survivors(items) == items
  {
    if items != [] {
      SurvivorsOfWellFormed(items[1..]);
    }
  }

  /** Nothing stored, an unparsable document, or a non-array loads as the empty history. */
  lemma NonArrayLoadsEmpty(stored: Stored, freshId: nat -> string)
    requires stored == Missing || stored == Malformed || (stored.Parsed? && !stored.value.JArr?)
    ensures Load(stored, freshId) == []
  {
  }

  /** `JSON.stringify` of one entry as `JSON.parse` reads it back: a record of its three fields. */
  function EntryToJson(e: SessionEntry): (r: Json)
    ensures r.JObj? && r.fields.Keys == {"id", "completedAt", "focusMinutes"}
    ensures Field(r, "id") == Some(e.id)
    ensures Field(r, "completedAt") == Some(JStr(e.completedAt))
    ensures Field(r, "focusMinutes") == Some(JNum(e.focusMinutes))
  {
    JObj(map["id" := e.id, "completedAt" := JStr(e.completedAt), "focusMinutes" := JNum(e.focusMinutes)])
  }

  function EntriesToJson(history: seq<SessionEntry>): (r: seq<Json>)
    ensures |r| == |history|
    ensures forall k :: 0 <= k < |r| ==> r[k] == EntryToJson(history[k])
  {
    if history == [] then [] else [EntryToJson(history[0])] + EntriesToJson(history[1..])
  }

  /** `save(history)`: what storage holds afterwards, one record per entry in order. */
  function Save(history: seq<SessionEntry>): (r: Stored)
    ensures r.Parsed? && r.value.JArr? && |r.value.items| == |history|
    ensures forall k :: 0 <= k < |history| ==> r.value.items[k] == EntryToJson(history[k])
  {
    Parsed(JArr(EntriesToJson(history)))
  }

  /** One recorded entry survives the filter and normalises back to itself. */
  lemma EntryRoundTrip(e: SessionEntry, newId: string)
    requires Truthy(e.id) && e.focusMinutes != 0
    ensures Keep(EntryToJson(e))
    ensures Normalize(EntryToJson(e), newId) == e
  {
    var j := EntryToJson(e);
    assert Field(j, "completedAt") == Some(JStr(e.completedAt));
    assert Field(j, "id") == Some(e.id);
    assert Field(j, "focusMinutes") == Some(JNum(e.focusMinutes));
  }

  /**
   * A saved history whose entries all have a truthy id and non-zero minutes
   * (what the app records) loads back unchanged, whatever fresh ids are at hand.
   */
  lemma SaveLoadRoundTrip(history: seq<SessionEntry>, freshId: nat -> string)
    requires forall k :: 0 <= k < |history| ==> Truthy(history[k].id) && history[k].focusMinutes != 0
    ensures Load(Save(history), freshId) == history
  {
    var items := EntriesToJson(history);
    forall i | 0 <= i < |items|
      ensures Keep(items[i])
    {
      EntryRoundTrip(history[i], freshId(i));
    }
    SurvivorsOfWellFormed(items);
    var r := Load(Save(history), freshId);
    forall k | 0 <= k < |history|
      ensures r[k] == history[k]
    {
      EntryRoundTrip(history[k], freshId(k));
    }
  }

  /** An entry lacking a string `completedAt` is dropped wherever it sits. */
  lemma MalformedEntryDropped(before: seq<Json>, entry: Json, after: seq<Json>)
    requires !Keep(entry)
    ensures Survivors(before + [entry] + after) == Survivors(before) + Survivors(after)
  {
    assert Survivors([entry]) == [] by {
      assert [entry][1..] == [];
    }
    SurvivorsAppend(before, [entry]);
    assert Survivors(before + [entry]) == Survivors(before);
    SurvivorsAppend(before + [entry], after);
  }
}
