/** The timetable screen: a flat list of timetable entries that the user can
    add to, remove from and replace with a sample, and the per-day grouping
    the screen displays. */
module Timetable {
  import opened Seqs
  import opened StringOrder

  datatype EntryType = Lecture | Lab | Practical

  /** One scheduled class. `day` is free text in the record type; the form only
      offers the six weekdays, but an entry may carry any string. */
  datatype Entry = Entry(id: string, day: string, time: string, subject: string, room: string, kind: EntryType)

  /** The add form's contents: an entry without its id. */
  datatype Draft = Draft(day: string, time: string, subject: string, room: string, kind: EntryType)

  /** One displayed day with that day's entries. */
  datatype DayGroup = DayGroup(day: string, entries: seq<Entry>)

  const Days: seq<string> := ["Monday", "Tuesday", "Wednesday", "Thursday", "Friday", "Saturday"]

  const DefaultDraft: Draft := Draft("Monday", "", "", "", Lecture)

  /** The sample list that the upload handler substitutes for any file. */
  const SampleTimetable: seq<Entry> := [
    Entry("1", "Monday", "09:00-10:00", "Data Structures", "CS-201", Lecture),
    Entry("2", "Monday", "14:00-17:00", "Data Structures Lab", "CS-Lab-1", Lab),
    Entry("3", "Tuesday", "10:00-11:00", "Database Systems", "CS-203", Lecture),
    Entry("4", "Wednesday", "11:00-14:00", "DBMS Lab", "CS-Lab-2", Lab),
    Entry("5", "Thursday", "09:00-10:00", "Operating Systems", "CS-202", Lecture),
    Entry("6", "Friday", "14:00-17:00", "OS Lab", "CS-Lab-1", Practical)
  ]

  /** The add guard: time, subject and room are all non-empty. */
  predicate Complete(d: Draft)
  {
    d.time != "" && d.subject != "" && d.room != ""
  }

  function FromDraft(d: Draft, id: string): Entry
  {
    Entry(id, d.day, d.time, d.subject, d.room, d.kind)
  }

  // ----- removal -----

  function OtherId(id: string): Entry -> bool
  {
    (e: Entry) => e.id != id
  }

  /** The list without the entries carrying `id`. */
  function RemoveById(list: seq<Entry>, id: string): seq<Entry>
  {
    Filter(list, OtherId(id))
  }

  /** Removal keeps exactly the entries of another id, as many times as before. */
  lemma RemoveByIdContents(list: seq<Entry>, id: string, e: Entry)
    ensures multiset(RemoveById(list, id))[e] == if e.id == id then 0 else multiset(list)[e]
  {
    FilterMultiset(list, OtherId(id), e);
  }

  /** The survivors keep their relative order: removal from a concatenation is
      the concatenation of the removals. */
  lemma RemoveByIdAppend(a: seq<Entry>, b: seq<Entry>, id: string)
    ensures RemoveById(a + b, id) == RemoveById(a, id) + RemoveById(b, id)
  {
    FilterAppend(a, b, OtherId(id));
  }

  /** The list is unchanged exactly when no entry carries the id. */
  lemma RemoveUnknownId(list: seq<Entry>, id: string)
    ensures RemoveById(list, id) == list <==> forall i :: 0 <= i < |list| ==> list[i].id != id
  {
    FilterIdentity(list, OtherId(id));
  }

  lemma RemoveByIdIdempotent(list: seq<Entry>, id: string)
    ensures RemoveById(RemoveById(list, id), id) == RemoveById(list, id)
  {
    var once := RemoveById(list, id);
    forall i | 0 <= i < |once| ensures once[i].id != id {
      FilterMembership(list, OtherId(id), once[i]);
    }
    RemoveUnknownId(once, id);
  }

  /** Removing the id of an entry whose id is unique deletes exactly that
      position, so the list gets one shorter. */
  lemma RemoveUniqueId(list: seq<Entry>, k: nat)
    requires k < |list|
    requires forall i :: 0 <= i < |list| && i != k ==> list[i].id != list[k].id
    ensures RemoveById(list, list[k].id) == list[..k] + list[k + 1..]
    ensures |RemoveById(list, list[k].id)| == |list| - 1
  {
    var id := list[k].id;
    var before, after := list[..k], list[k + 1..];
    assert list == before + ([list[k]] + after);
    RemoveByIdAppend(before, [list[k]] + after, id);
    RemoveByIdAppend([list[k]], after, id);
    RemoveFromCleanSlice(list, 0, k, id);
    RemoveFromCleanSlice(list, k + 1, |list|, id);
    assert list[0..k] == before && list[k + 1..|list|] == after;
    assert RemoveById([list[k]], id) == [] by {
      assert [list[k]][1..] == [];
    }
  }

  /** Removing a freshly added entry by its id restores the list, provided no
      older entry carries the same id; with a clashing id both would go. */
  lemma RemoveUndoesAdd(list: seq<Entry>, d: Draft, id: string)
    requires forall i :: 0 <= i < |list| ==> list[i].id != id
    ensures RemoveById(list + [FromDraft(d, id)], id) == list
  {
    RemoveByIdAppend(list, [FromDraft(d, id)], id);
    RemoveUnknownId(list, id);
    assert [FromDraft(d, id)][1..] == [];
    assert RemoveById([FromDraft(d, id)], id) == [];
  }

  lemma RemoveFromCleanSlice(list: seq<Entry>, lo: nat, hi: nat, id: string)
    requires lo <= hi <= |list|
    requires forall i :: lo <= i < hi ==> list[i].id != id
    ensures RemoveById(list[lo..hi], id) == list[lo..hi]
  {
    RemoveUnknownId(list[lo..hi], id);
  }

  // ----- sorting by time -----

  predicate SortedByTime(s: seq<Entry>)
  {
    forall i, j :: 0 <= i < j < |s| ==> LexLe(s[i].time, s[j].time)
  }

  function TimeIs(t: string): Entry -> bool
  {
    (e: Entry) => e.time == t
  }

  /** Inserts `e` before the first entry that does not sort strictly before it. */
  function Insert(e: Entry, s: seq<Entry>): (r: seq<Entry>)
    ensures multiset(r) == multiset(s) + multiset{e}
  {
    if s == [] then [e]
    else if LexLe(e.time, s[0].time) then [e] + s
    else
      assert s == [s[0]] + s[1..];
      [s[0]] + Insert(e, s[1..])
  }

  /** The `.sort((a, b) => a.time.localeCompare(b.time))` of a filtered day:
      a stable sort by time. */
  function SortByTime(s: seq<Entry>): (r: seq<Entry>)
    ensures multiset(r) == multiset(s)
  {
    if s == [] then []
    else
      assert s == [s[0]] + s[1..];
      Insert(s[0], SortByTime(s[1..]))
  }

  lemma {:induction false} InsertSorted(e: Entry, s: seq<Entry>)
    requires SortedByTime(s)
    ensures SortedByTime(Insert(e, s))
  {
    if s == [] {
    } else if LexLe(e.time, s[0].time) {
      var r := [e] + s;
      forall i, j | 0 <= i < j < |r| ensures LexLe(r[i].time, r[j].time) {
        if i == 0 && j > 1 {
          LexLeTransitive(e.time, s[0].time, s[j - 1].time);
        }
      }
    } else {
      var tail := Insert(e, s[1..]);
      InsertSorted(e, s[1..]);
      LexLeTotal(e.time, s[0].time);
      forall j | 0 <= j < |tail| ensures LexLe(s[0].time, tail[j].time) {
        assert tail[j] in multiset(s[1..]) + multiset{e};
        if tail[j] != e {
          assert tail[j] in s[1..];
          var k :| 0 <= k < |s[1..]| && s[1..][k] == tail[j];
          assert s[k + 1] == tail[j];
        }
      }
    }
  }

  lemma {:induction false} SortByTimeSorted(s: seq<Entry>)
    ensures SortedByTime(SortByTime(s))
  {
    if s != [] {
      SortByTimeSorted(s[1..]);
      InsertSorted(s[0], SortByTime(s[1..]));
    }
  }

  /** Inserting never overtakes an entry of the same time. */
  lemma {:induction false} InsertStable(e: Entry, s: seq<Entry>, t: string)
    ensures Filter(Insert(e, s), TimeIs(t)) == Filter([e] + s, TimeIs(t))
  {
    if s != [] && !LexLe(e.time, s[0].time) {
      LexLeReflexive(e.time);
      assert e.time != s[0].time;
      InsertStable(e, s[1..], t);
      FilterAppend([s[0]], Insert(e, s[1..]), TimeIs(t));
      FilterAppend([e], s[1..], TimeIs(t));
      FilterAppend([s[0]], s[1..], TimeIs(t));
      FilterAppend([e], s, TimeIs(t));
      assert s == [s[0]] + s[1..];
    }
  }

  /** Stability: entries with equal times come out in their input order. */
  lemma {:induction false} SortByTimeStable(s: seq<Entry>, t: string)
    ensures Filter(SortByTime(s), TimeIs(t)) == Filter(s, TimeIs(t))
  {
    if s != [] {
      SortByTimeStable(s[1..], t);
      InsertStable(s[0], SortByTime(s[1..]), t);
      FilterAppend([s[0]], SortByTime(s[1..]), TimeIs(t));
      FilterAppend([s[0]], s[1..], TimeIs(t));
      assert s == [s[0]] + s[1..];
    }
  }

  // ----- grouping by day -----

  function DayIs(day: string): Entry -> bool
  {
    (e: Entry) => e.day == day
  }

  /** `groupedTimetable`: for each of the six days in order, that day's entries sorted by time. */
  function GroupByDay(list: seq<Entry>): seq<DayGroup>
  {
    seq(|Days|, i requires 0 <= i < |Days| => DayGroup(Days[i], SortByTime(Filter(list, DayIs(Days[i])))))
  }

  /** Six groups, Monday to Saturday, whatever the list holds (also when it is empty). */
  lemma GroupByDayShape(list: seq<Entry>)
    ensures |GroupByDay(list)| == 6
    ensures forall i :: 0 <= i < 6 ==> GroupByDay(list)[i].day == Days[i]
    ensures GroupByDay([]) == [DayGroup("Monday", []), DayGroup("Tuesday", []), DayGroup("Wednesday", []),
                               DayGroup("Thursday", []), DayGroup("Friday", []), DayGroup("Saturday", [])]
  {
  }

  /** A group holds, sorted by time and in stable order, a permutation of exactly
      the entries of its day. */
  lemma GroupContents(list: seq<Entry>, i: nat, e: Entry, t: string)
    requires i < 6
    ensures SortedByTime(GroupByDay(list)[i].entries)
    ensures multiset(GroupByDay(list)[i].entries)[e] == if e.day == Days[i] then multiset(list)[e] else 0
    ensures Filter(GroupByDay(list)[i].entries, TimeIs(t)) == Filter(Filter(list, DayIs(Days[i])), TimeIs(t))
  {
    var ofDay := Filter(list, DayIs(Days[i]));
    SortByTimeSorted(ofDay);
    FilterMultiset(list, DayIs(Days[i]), e);
    SortByTimeStable(ofDay, t);
  }

  /** An entry whose day is not one of the six appears in no group. */
  lemma GroupOmitsOtherDays(list: seq<Entry>, e: Entry)
    requires e.day !in Days
    ensures forall i :: 0 <= i < 6 ==> e !in GroupByDay(list)[i].entries
  {
    forall i | 0 <= i < 6 ensures e !in GroupByDay(list)[i].entries {
      GroupContents(list, i, e, "");
    }
  }

  /** Appending an entry adds it to the group of its day and leaves every other group as it was. */
  lemma GroupAfterAppend(list: seq<Entry>, e: Entry, i: nat)
    requires i < 6
    ensures e.day == Days[i] ==>
      multiset(GroupByDay(list + [e])[i].entries) == multiset(GroupByDay(list)[i].entries) + multiset{e}
    ensures e.day != Days[i] ==> GroupByDay(list + [e])[i].entries == GroupByDay(list)[i].entries
  {
    var day := Days[i];
    var before := Filter(list, DayIs(day));
    FilterAppend(list, [e], DayIs(day));
    assert [e][1..] == [];
    assert Filter(list + [e], DayIs(day)) == before + (if e.day == day then [e] else []);
    assert GroupByDay(list + [e])[i].entries == SortByTime(Filter(list + [e], DayIs(day)));
    assert GroupByDay(list)[i].entries == SortByTime(before);
    if e.day != day {
      assert before + [] == before;
    }
  }

  // ----- type colour and icon -----

  /** `getTypeColor`: the badge colour class of an entry type. */
  function TypeColor(kind: EntryType): string
  {
    match kind
    case Lecture => "bg-blue-500"
    case Lab => "bg-green-500"
    case Practical => "bg-orange-500"
  }

  datatype Icon = FlaskConical | BookOpen

  /** `getTypeIcon`: labs and practicals share the flask, lectures get the book. */
  function TypeIcon(kind: EntryType): Icon
  {
    match kind
    case Lab | Practical => FlaskConical
    case Lecture => BookOpen
  }

  lemma TypeColorDistinct(a: EntryType, b: EntryType)
    ensures TypeColor(a) == TypeColor(b) <==> a == b
  {
  }

  lemma TypeIconKinds(kind: EntryType)
    ensures TypeIcon(kind) == TypeIcon(Lab) <==> kind != Lecture
    ensures TypeIcon(Lab) == TypeIcon(Practical) && TypeIcon(Lecture) != TypeIcon(Lab)
  {
  }

  // ----- the sample data -----

  /** Six entries with distinct ids over five of the six days and all three types,
      each one passing the add guard. */
  lemma SampleTimetableFacts()
    ensures |SampleTimetable| == 6
    ensures forall i, j :: 0 <= i < j < 6 ==> SampleTimetable[i].id != SampleTimetable[j].id
    ensures forall i :: 0 <= i < 6 ==> SampleTimetable[i].day in Days && SampleTimetable[i].day != "Saturday"
    ensures forall i :: 0 <= i < 6 ==> SampleTimetable[i].time != "" && SampleTimetable[i].subject != "" && SampleTimetable[i].room != ""
  {
  }

  /** The sample covers Monday to Friday and all three entry types. */
  lemma SampleTimetableCoverage()
    ensures DaysPresent(SampleTimetable) == {"Monday", "Tuesday", "Wednesday", "Thursday", "Friday"}
    ensures KindsPresent(SampleTimetable) == {Lecture, Lab, Practical}
  {
    assert SampleTimetable[0] in SampleTimetable && SampleTimetable[1] in SampleTimetable;
    assert SampleTimetable[2] in SampleTimetable && SampleTimetable[3] in SampleTimetable;
    assert SampleTimetable[4] in SampleTimetable && SampleTimetable[5] in SampleTimetable;
  }

  function DaysPresent(list: seq<Entry>): set<string>
  {
    set e | e in list :: e.day
  }

  function KindsPresent(list: seq<Entry>): set<EntryType>
  {
    set e | e in list :: e.kind
  }

  // ----- the screen's state -----

  /** The timetable screen's state: the stored list (kept by the shared student
      store, modelled as a field), the "add entry" form flag and the draft. */
  class TimetableScreen {
    var timetable: seq<Entry>
    var showAddForm: bool
    var newEntry: Draft

    /** Mounting the screen over the store's current list. */
    constructor (stored: seq<Entry>)
      ensures timetable == stored && !showAddForm && newEntry == DefaultDraft
    {
      timetable := stored;
      showAddForm := false;
      newEntry := DefaultDraft;
    }

    /** The grouping derived from the current list. */
    function Grouped(): seq<DayGroup>
      reads this
    {
      GroupByDay(timetable)
    }

    /** `handleAddEntry`; `id` stands for the timestamp the source takes from the clock. */
    method AddEntry(id: string)
      modifies this
      ensures Complete(old(newEntry)) ==>
        && timetable == old(timetable) + [FromDraft(old(newEntry), id)]
        && newEntry == DefaultDraft
        && !showAddForm
      ensures !Complete(old(newEntry)) ==>
        timetable == old(timetable) && newEntry == old(newEntry) && showAddForm == old(showAddForm)
    {
      if Complete(newEntry) {
        var entry := FromDraft(newEntry, id);
        timetable := timetable + [entry];
        newEntry := DefaultDraft;
        showAddForm := false;
      }
    }

    /** `handleRemoveEntry`. */
    method RemoveEntry(id: string)
      modifies this
      ensures timetable == RemoveById(old(timetable), id)
      ensures newEntry == old(newEntry) && showAddForm == old(showAddForm)
    {
      timetable := RemoveById(timetable, id);
    }

    /** `handleFileUpload`; only whether a file was selected matters. */
    method FileUpload(filePresent: bool)
      modifies this
      ensures timetable == if filePresent then SampleTimetable else old(timetable)
      ensures newEntry == old(newEntry) && showAddForm == old(showAddForm)
    {
      if filePresent {
        timetable := SampleTimetable;
      }
    }

    /** The "Add Entry" button toggles the form. */
    method ToggleAddForm()
      modifies this
      ensures showAddForm == !old(showAddForm)
      ensures timetable == old(timetable) && newEntry == old(newEntry)
    {
      showAddForm := !showAddForm;
    }

    /** The form's "Cancel" button closes it and keeps the draft. */
    method CancelAddForm()
      modifies this
      ensures !showAddForm
      ensures timetable == old(timetable) && newEntry == old(newEntry)
    {
      showAddForm := false;
    }

    method SetDay(day: string)
      modifies this
      ensures newEntry == old(newEntry).(day := day)
      ensures timetable == old(timetable) && showAddForm == old(showAddForm)
    {
      newEntry := newEntry.(day := day);
    }

    method SetTime(time: string)
      modifies this
      ensures newEntry == old(newEntry).(time := time)
      ensures timetable == old(timetable) && showAddForm == old(showAddForm)
    {
      newEntry := newEntry.(time := time);
    }

    method SetSubject(subject: string)
      modifies this
      ensures newEntry == old(newEntry).(subject := subject)
      ensures timetable == old(timetable) && showAddForm == old(showAddForm)
    {
      newEntry := newEntry.(subject := subject);
    }

    method SetRoom(room: string)
      modifies this
      ensures newEntry == old(newEntry).(room := room)
      ensures timetable == old(timetable) && showAddForm == old(showAddForm)
    {
      newEntry := newEntry.(room := room);
    }

    method SetKind(kind: EntryType)
      modifies this
      ensures newEntry == old(newEntry).(kind := kind)
      ensures timetable == old(timetable) && showAddForm == old(showAddForm)
    {
      newEntry := newEntry.(kind := kind);
    }
  }

  /** A client of the screen: the example of an empty list and one added Tuesday
      class, which then shows up only under Tuesday. */
  method AddOneToEmpty() returns (groups: seq<DayGroup>)
    ensures |groups| == 6
    ensures groups[1].entries == [Entry("t1", "Tuesday", "10:00-11:00", "DB", "CS-203", Lecture)]
    ensures forall i :: 0 <= i < 6 && i != 1 ==> groups[i].entries == []
  {
    var screen := new TimetableScreen([]);
    screen.SetDay("Tuesday");
    screen.SetTime("10:00-11:00");
    screen.SetSubject("DB");
    screen.SetRoom("CS-203");
    screen.AddEntry("t1");
    var entry := Entry("t1", "Tuesday", "10:00-11:00", "DB", "CS-203", Lecture);
    assert screen.timetable == [entry];
    groups := screen.Grouped();
    OnlyItsDay(entry, 1);
  }

  /** A one-entry list shows its entry under its own day and nowhere else. */
  lemma OnlyItsDay(e: Entry, k: nat)
    requires k < 6 && e.day == Days[k]
    ensures |GroupByDay([e])| == 6
    ensures forall i :: 0 <= i < 6 ==> GroupByDay([e])[i].entries == if i == k then [e] else []
  {
    GroupByDayShape([e]);
    assert [] + [e] == [e];
    forall i | 0 <= i < 6
      ensures GroupByDay([e])[i].entries == if i == k then [e] else []
    {
      GroupAfterAppend([], e, i);
      GroupByDayShape([]);
      assert GroupByDay([])[i].entries == [];
      if i == k {
        var g := GroupByDay([e])[i].entries;
        assert multiset(g) == multiset{e};
        assert |g| == 1;
        assert g[0] in multiset(g);
      }
    }
  }
}
