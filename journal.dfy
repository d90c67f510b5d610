/**
 * The journal (`BrainDump`): an ordered list of entries plus an editor holding
 * the entry being written. Saving prepends a new entry or updates the entries
 * whose id is the one being edited; deleting filters entries out by id.
 *
 * The clock (`Date.now()` for ids, `new Date().toISOString()` for timestamps)
 * and the text returned by the completion service are parameters.
 */
module Journal {

  datatype Option<T> = None | Some(value: T)

  datatype Entry = Entry(id: string, title: string, body: string, createdAt: string, updatedAt: string, aiAdvice: string)

  datatype View = List | Editor

  /** The component's state: the screen shown, the entry list and the editor fields. */
  datatype BrainDump = BrainDump(
    view: View,
    entries: seq<Entry>,
    currentId: Option<string>,
    currentTitle: string,
    currentBody: string,
    aiAdvice: string)

  /** The title a saved entry gets when its title field is empty. */
  const UntitledTitle := "Untitled Thought"

  /** Mount with the entries read from storage. */
  function Mount(stored: seq<Entry>): (r: BrainDump)
    ensures r.view == List && r.entries == stored && r.currentId == None
    ensures r.currentTitle == "" && r.currentBody == "" && r.aiAdvice == ""
  {
    BrainDump(List, stored, None, "", "", "")
  }

  // ---------------------------------------------------------------------------
  // String.prototype.trim

  /** The characters `trim` removes: ECMAScript WhiteSpace and LineTerminator. */
  predicate IsWhitespace(c: char) {
    c == '\t' || c == '\n' || c == '\U{000B}' || c == '\U{000C}' || c == '\r' || c == ' '
    || c == '\U{00A0}' || c == '\U{1680}' || ('\U{2000}' <= c <= '\U{200A}')
    || c == '\U{2028}' || c == '\U{2029}' || c == '\U{202F}' || c == '\U{205F}'
    || c == '\U{3000}' || c == '\U{FEFF}'
  }

  /** Drops leading whitespace: the result is the suffix of s after its leading whitespace run. */
  function TrimStart(s: string): (r: string)
    ensures |r| <= |s| && r == s[|s| - |r|..]
    ensures forall k :: 0 <= k < |s| - |r| ==> IsWhitespace(s[k])
    ensures r != [] ==> !IsWhitespace(r[0])
  {
    if |s| > 0 && IsWhitespace(s[0]) then TrimStart(s[1..]) else s
  }

  /** Drops trailing whitespace: the result is the prefix of s before its trailing whitespace run. */
  function TrimEnd(s: string): (r: string)
    ensures |r| <= |s| && r == s[..|r|]
    ensures forall k :: |r| <= k < |s| ==> IsWhitespace(s[k])
    ensures r != [] ==> !IsWhitespace(r[|r| - 1])
  {
    if |s| > 0 && IsWhitespace(s[|s| - 1]) then TrimEnd(s[..|s| - 1]) else s
  }

  function Trim(s: string): string {
    TrimEnd(TrimStart(s))
  }

  /** `!s.trim()`: the string trims to the empty string. */
  predicate IsBlank(s: string) {
    Trim(s) == ""
  }

  /** A string is blank exactly when every character of it is whitespace. */
  lemma BlankIffAllWhitespace(s: string)
    ensures IsBlank(s) <==> forall k :: 0 <= k < |s| ==> IsWhitespace(s[k])
  {
  }

  // ---------------------------------------------------------------------------
  // List operations

  /** `{ ...e, ...entryData }`: the editor's fields over an existing entry, keeping its id and creation time. */
  function Merge(e: Entry, title: string, body: string, updatedAt: string, aiAdvice: string): Entry {
    e.(title := title, body := body, updatedAt := updatedAt, aiAdvice := aiAdvice)
  }

  /** `entries.map(e => e.id === id ? { ...e, ...entryData } : e)`. */
  function UpdateById(entries: seq<Entry>, id: string, title: string, body: string, updatedAt: string, aiAdvice: string): (r: seq<Entry>)
    ensures |r| == |entries|
    ensures forall i :: 0 <= i < |entries| ==>
      r[i] == if entries[i].id == id then Merge(entries[i], title, body, updatedAt, aiAdvice) else entries[i]
  {
    if entries == [] then []
    else
      var e := entries[0];
      [if e.id == id then Merge(e, title, body, updatedAt, aiAdvice) else e]
      + UpdateById(entries[1..], id, title, body, updatedAt, aiAdvice)
  }

  /** `entries.filter(item => item.id !== id)`. */
  function RemoveById(entries: seq<Entry>, id: string): (r: seq<Entry>)
    ensures |r| <= |entries|
    ensures forall e :: e in r <==> e in entries && e.id != id
  {
    if entries == [] then []
    else if entries[0].id != id then [entries[0]] + RemoveById(entries[1..], id)
    else RemoveById(entries[1..], id)
  }

  /** Filtering distributes over concatenation, so the kept entries stay in their original order. */
  lemma {:induction false} RemoveByIdAppend(a: seq<Entry>, b: seq<Entry>, id: string)
    ensures RemoveById(a + b, id) == RemoveById(a, id) + RemoveById(b, id)
    decreases |a|
  {
    if a != [] {
      assert (a + b)[0] == a[0] && (a + b)[1..] == a[1..] + b;
      RemoveByIdAppend(a[1..], b, id);
      var x, y := RemoveById(a[1..], id), RemoveById(b, id);
      if a[0].id != id {
        assert RemoveById(a + b, id) == [a[0]] + (x + y);
        assert RemoveById(a, id) == [a[0]] + x;
        assert [a[0]] + (x + y) == ([a[0]] + x) + y;
      } else {
        assert RemoveById(a + b, id) == x + y;
      }
    } else {
      assert a + b == b;
    }
  }

  /** Deleting an id that no entry has leaves the list as it is. */
  lemma {:induction false} RemoveAbsentId(entries: seq<Entry>, id: string)
    requires forall e :: e in entries ==> e.id != id
    ensures RemoveById(entries, id) == entries
    decreases |entries|
  {
    if entries != [] {
      RemoveAbsentId(entries[1..], id);
    }
  }

  /** Deleting the same id twice is the same as deleting it once. */
  lemma RemoveByIdIdempotent(entries: seq<Entry>, id: string)
    ensures RemoveById(RemoveById(entries, id), id) == RemoveById(entries, id)
  {
  }

  /** No two entries share an id (the code relies on `Date.now()` for this and does not check it). */
  ghost predicate UniqueIds(entries: seq<Entry>) {
    forall i, j :: 0 <= i < j < |entries| ==> entries[i].id != entries[j].id
  }

  // ---------------------------------------------------------------------------
  // Handlers

  /** `if (currentId)`: JavaScript truthiness, so both null and the empty string mean "new entry". */
  predicate HasCurrentId(j: BrainDump) {
    j.currentId.Some? && j.currentId.value != ""
  }

  /** `currentTitle || 'Untitled Thought'`. */
  function SavedTitle(title: string): (r: string)
    ensures r != ""
    ensures title == "" ==> r == UntitledTitle
    ensures title != "" ==> r == title
  {
    if title == "" then UntitledTitle else title
  }

  /** `resetEditor`: clear the id, title, body and advice; the view and the list are left alone. */
  function ResetEditor(j: BrainDump): (r: BrainDump)
    ensures r.view == j.view && r.entries == j.entries
    ensures r.currentId == None && r.currentTitle == "" && r.currentBody == "" && r.aiAdvice == ""
  {
    j.(currentId := None, currentTitle := "", currentBody := "", aiAdvice := "")
  }

  /** `createNew`: an empty editor. */
  function CreateNew(j: BrainDump): (r: BrainDump)
    ensures r.view == Editor && r.entries == j.entries && r.currentId == None
    ensures r.currentTitle == "" && r.currentBody == "" && r.aiAdvice == ""
  {
    ResetEditor(j).(view := Editor)
  }

  /** `openEntry`: load an entry into the editor. */
  function OpenEntry(j: BrainDump, e: Entry): (r: BrainDump)
    ensures r.view == Editor && r.entries == j.entries
    ensures r.currentId == Some(e.id) && r.currentTitle == e.title && r.currentBody == e.body && r.aiAdvice == e.aiAdvice
  {
    j.(view := Editor, currentId := Some(e.id), currentTitle := e.title, currentBody := e.body, aiAdvice := e.aiAdvice)
  }

  /** The `onChange` handlers of the title and body fields. */
  function EditTitle(j: BrainDump, title: string): (r: BrainDump)
    ensures r.currentTitle == title
    ensures r.view == j.view && r.entries == j.entries && r.currentId == j.currentId
    ensures r.currentBody == j.currentBody && r.aiAdvice == j.aiAdvice
  {
    j.(currentTitle := title)
  }

  function EditBody(j: BrainDump, body: string): (r: BrainDump)
    ensures r.currentBody == body
    ensures r.view == j.view && r.entries == j.entries && r.currentId == j.currentId
    ensures r.currentTitle == j.currentTitle && r.aiAdvice == j.aiAdvice
  {
    j.(currentBody := body)
  }

  /**
   * `handleSoothe` once the completion service has answered with `response`
   * (a fallback text when it failed): nothing happens for an empty body.
   */
  function Soothe(j: BrainDump, response: string): (r: BrainDump)
    ensures j.currentBody == "" ==> r == j
    ensures j.currentBody != "" ==> r == j.(aiAdvice := response)
  {
    if j.currentBody == "" then j else j.(aiAdvice := response)
  }

  /** The entry a save with no current id puts at the head of the list. */
  function NewEntry(j: BrainDump, timestamp: string, freshId: string): Entry {
    Entry(freshId, SavedTitle(j.currentTitle), j.currentBody, timestamp, timestamp, j.aiAdvice)
  }

  /**
   * `handleSave`, with `timestamp` the ISO time of the save and `freshId` the
   * id `Date.now()` would give a new entry.
   */
  function HandleSave(j: BrainDump, timestamp: string, freshId: string): (r: BrainDump)
    ensures r.view == List
    // blank title and body: back to the list, nothing else changes
    ensures IsBlank(j.currentTitle) && IsBlank(j.currentBody) ==> r == j.(view := List)
    // otherwise the editor is cleared
    ensures !(IsBlank(j.currentTitle) && IsBlank(j.currentBody)) ==>
      r.currentId == None && r.currentTitle == "" && r.currentBody == "" && r.aiAdvice == ""
    // a new entry goes in front of the old ones, which keep their order
    ensures !(IsBlank(j.currentTitle) && IsBlank(j.currentBody)) && !HasCurrentId(j) ==>
      |r.entries| == |j.entries| + 1 && r.entries[1..] == j.entries
      && r.entries[0].id == freshId && r.entries[0].createdAt == timestamp && r.entries[0].updatedAt == timestamp
      && r.entries[0].title == SavedTitle(j.currentTitle) && r.entries[0].body == j.currentBody
      && r.entries[0].aiAdvice == j.aiAdvice
    // an existing entry: same length, matching ids take the editor's fields and keep id and creation time
    ensures !(IsBlank(j.currentTitle) && IsBlank(j.currentBody)) && HasCurrentId(j) ==>
      |r.entries| == |j.entries|
      && forall i :: 0 <= i < |j.entries| ==>
        if j.entries[i].id == j.currentId.value then
          r.entries[i].id == j.entries[i].id && r.entries[i].createdAt == j.entries[i].createdAt
          && r.entries[i].title == SavedTitle(j.currentTitle) && r.entries[i].body == j.currentBody
          && r.entries[i].updatedAt == timestamp && r.entries[i].aiAdvice == j.aiAdvice
        else r.entries[i] == j.entries[i]
  {
    if IsBlank(j.currentBody) && IsBlank(j.currentTitle) then
      j.(view := List)
    else
      var newEntries :=
        if HasCurrentId(j) then
          UpdateById(j.entries, j.currentId.value, SavedTitle(j.currentTitle), j.currentBody, timestamp, j.aiAdvice)
        else
          [NewEntry(j, timestamp, freshId)] + j.entries;
      ResetEditor(j.(entries := newEntries, view := List))
  }

  /** `handleDelete`: drop every entry with the id; leave the editor if it had that entry open. */
  function HandleDelete(j: BrainDump, id: string): (r: BrainDump)
    ensures r.entries == RemoveById(j.entries, id)
    ensures forall e :: e in r.entries <==> e in j.entries && e.id != id
    ensures r.view == if j.currentId == Some(id) then List else j.view
    ensures r.currentId == j.currentId && r.currentTitle == j.currentTitle
    ensures r.currentBody == j.currentBody && r.aiAdvice == j.aiAdvice
  {
    var newEntries := RemoveById(j.entries, id);
    if j.currentId == Some(id) then j.(entries := newEntries, view := List) else j.(entries := newEntries)
  }

  // ---------------------------------------------------------------------------
  // Properties across handlers

  /** Saving a new entry and then deleting its id gives back the old list, when the id was not in use. */
  lemma SaveNewThenDelete(j: BrainDump, timestamp: string, freshId: string)
    requires !(IsBlank(j.currentTitle) && IsBlank(j.currentBody)) && !HasCurrentId(j)
    requires forall e :: e in j.entries ==> e.id != freshId
    ensures HandleDelete(HandleSave(j, timestamp, freshId), freshId).entries == j.entries
  {
    var saved := HandleSave(j, timestamp, freshId).entries;
    assert saved == [NewEntry(j, timestamp, freshId)] + j.entries;
    RemoveByIdAppend([NewEntry(j, timestamp, freshId)], j.entries, freshId);
    RemoveAbsentId(j.entries, freshId);
  }

  /** Saving with a current id that no entry has leaves the list unchanged: the update matches nothing. */
  lemma SaveToMissingIdIsLost(j: BrainDump, timestamp: string, freshId: string)
    requires HasCurrentId(j) && forall e :: e in j.entries ==> e.id != j.currentId.value
    ensures HandleSave(j, timestamp, freshId).entries == j.entries
  {
  }

  /**
   * Opening an entry of a list with unique ids and saving it unedited changes
   * only that entry's `updatedAt` (a non-blank entry whose title is not empty).
   */
  lemma ReopenAndSaveTouchesOnlyUpdatedAt(j: BrainDump, e: Entry, timestamp: string, freshId: string)
    requires UniqueIds(j.entries) && e in j.entries
    requires e.id != "" && e.title != "" && !(IsBlank(e.title) && IsBlank(e.body))
    ensures var r := HandleSave(OpenEntry(j, e), timestamp, freshId);
      |r.entries| == |j.entries|
      && forall i :: 0 <= i < |j.entries| ==>
        r.entries[i] == if j.entries[i] == e then e.(updatedAt := timestamp) else j.entries[i]
  {
  }

  /** Saves keep ids unique when the new id is fresh; updates never change an id. */
  lemma SaveKeepsIdsUnique(j: BrainDump, timestamp: string, freshId: string)
    requires UniqueIds(j.entries)
    requires forall e :: e in j.entries ==> e.id != freshId
    ensures UniqueIds(HandleSave(j, timestamp, freshId).entries)
  {
  }

  /** Deleting keeps ids unique. */
  lemma {:induction false} DeleteKeepsIdsUnique(entries: seq<Entry>, id: string)
    requires UniqueIds(entries)
    ensures UniqueIds(RemoveById(entries, id))
    decreases |entries|
  {
    if entries != [] {
      DeleteKeepsIdsUnique(entries[1..], id);
      var rest := RemoveById(entries[1..], id);
      if entries[0].id != id {
        var r := [entries[0]] + rest;
        forall a, b | 0 <= a < b < |r| ensures r[a].id != r[b].id {
          if a == 0 {
            assert r[b] in rest;
            var m :| 0 <= m < |entries[1..]| && entries[1..][m] == r[b];
            assert entries[m + 1] == r[b];
          } else {
            assert r[a] == rest[a - 1] && r[b] == rest[b - 1];
          }
        }
      }
    }
  }
}
