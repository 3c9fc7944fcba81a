/** The application state of the report tool's main screen (`App`): the
    imported workbook and the selectable field list, with the operations
    of the field-customisation panel (drag to reorder, move up or down,
    remove, toggle inclusion) and the page list handed to the evidence
    wizard. */
module App {
  import opened Common
  import opened Types
  import opened FieldRoles

  /** The sheets of a workbook by name. */
  type Sheets = map<string, seq<Row>>

  /** `sheets[name] || []`: a missing sheet is empty (an empty sheet is
      already an empty array). */
  function SheetOrEmpty(sheets: Sheets, name: string): (rows: seq<Row>)
    ensures name in sheets ==> rows == sheets[name]
    ensures name !in sheets ==> rows == []
  {
    if name in sheets then sheets[name] else []
  }

  /** `field-{i}`. */
  function FieldId(i: nat): string {
    "field-" + NatToString(i)
  }

  /** One included field per header, in header order. */
  function FieldsFromHeaders(headers: seq<string>): (fs: seq<FieldData>)
    ensures |fs| == |headers|
  {
    seq(|headers|, i requires 0 <= i < |headers| => FieldData(FieldId(i), headers[i], true))
  }

  /** No two fields share an id. */
  predicate DistinctIds(fs: seq<FieldData>) {
    forall i, j :: 0 <= i < |fs| && 0 <= j < |fs| && i != j ==> fs[i].id != fs[j].id
  }

  /** The built fields carry the headers as names, all are included, and
      their ids are pairwise different. */
  lemma {:induction false} FieldsFromHeadersFacts(headers: seq<string>)
    ensures forall i :: 0 <= i < |headers| ==> FieldsFromHeaders(headers)[i].name == headers[i]
    ensures Included(FieldsFromHeaders(headers)) == FieldsFromHeaders(headers)
    ensures DistinctIds(FieldsFromHeaders(headers))
  {
    var fs := FieldsFromHeaders(headers);
    AllIncluded(fs);
    forall i, j | 0 <= i < |fs| && 0 <= j < |fs| && i != j
      ensures fs[i].id != fs[j].id
    {
      if fs[i].id == fs[j].id {
        assert NatToString(i) == fs[i].id[6..];
        assert NatToString(j) == fs[j].id[6..];
        NatToStringInjective(i, j);
      }
    }
  }

  /** Selecting from fields that are all included keeps every one. */
  lemma {:induction false} AllIncluded(fs: seq<FieldData>)
    requires forall i :: 0 <= i < |fs| ==> fs[i].included
    ensures Included(fs) == fs
  {
    if |fs| > 0 {
      AllIncluded(fs[1..]);
      assert fs == [fs[0]] + fs[1..];
    }
  }

  // ---------------------------------------------------------------------
  // Reordering by drag and drop.

  /** `s.splice(i, 1)`. */
  function RemoveAt<T>(s: seq<T>, i: nat): (r: seq<T>)
    requires i < |s|
    ensures |r| == |s| - 1
    ensures forall k :: 0 <= k < i ==> r[k] == s[k]
    ensures forall k :: i <= k < |r| ==> r[k] == s[k + 1]
  {
    s[..i] + s[i + 1..]
  }

  /** `s.splice(i, 0, x)`; a position past the end appends. */
  function InsertAt<T>(s: seq<T>, i: nat, x: T): (r: seq<T>)
    ensures |r| == |s| + 1
    ensures i < |s| ==> r[i] == x && forall k :: 0 <= k < i ==> r[k] == s[k]
    ensures i < |s| ==> forall k :: i < k < |r| ==> r[k] == s[k - 1]
    ensures i >= |s| ==> r == s + [x]
  {
    if i >= |s| then s + [x] else s[..i] + [x] + s[i..]
  }

  /** The item at `from` taken out and put back at `to`. */
  function Moved<T>(s: seq<T>, from: nat, to: nat): seq<T>
    requires from < |s|
  {
    InsertAt(RemoveAt(s, from), to, s[from])
  }

  /** A drag keeps the items and their number, and lands the dragged item
      at its destination (or last, when the destination is past the end). */
  lemma {:induction false} MovedPermutes<T>(s: seq<T>, from: nat, to: nat)
    requires from < |s|
    ensures |Moved(s, from, to)| == |s|
    ensures multiset(Moved(s, from, to)) == multiset(s)
    ensures Moved(s, from, to)[if to < |s| then to else |s| - 1] == s[from]
  {
    var rest := RemoveAt(s, from);
    assert s == s[..from] + [s[from]] + s[from + 1..];
    assert multiset(s) == multiset(rest) + multiset{s[from]};
    if to < |rest| {
      assert InsertAt(rest, to, s[from]) == rest[..to] + [s[from]] + rest[to..];
      assert rest == rest[..to] + rest[to..];
    }
  }

  /** Dragging back from the destination to the origin restores the list. */
  lemma {:induction false} MovedBack<T>(s: seq<T>, from: nat, to: nat)
    requires from < |s| && to < |s|
    ensures Moved(Moved(s, from, to), to, from) == s
  {
    var rest := RemoveAt(s, from);
    var t := Moved(s, from, to);
    MovedPermutes(s, from, to);
    assert t[to] == s[from];
    assert RemoveAt(t, to) == rest;
    assert InsertAt(rest, from, s[from]) == s;
  }

  /** A place in a drag-and-drop list. */
  datatype Location = Location(droppableId: string, index: nat)

  // ---------------------------------------------------------------------
  // Single-step moves, removal and inclusion.

  /** `fields.findIndex(f => f.id === id)`. */
  function IndexOfId(fields: seq<FieldData>, id: string): (r: Option<nat>)
    ensures r.None? <==> forall i :: 0 <= i < |fields| ==> fields[i].id != id
    ensures r.Some? ==> r.value < |fields| && fields[r.value].id == id &&
                        forall j :: 0 <= j < r.value ==> fields[j].id != id
  {
    if |fields| == 0 then None
    else if fields[0].id == id then Some(0)
    else
      var r := IndexOfId(fields[1..], id);
      assert forall i :: 1 <= i < |fields| ==> fields[i] == fields[1..][i - 1];
      if r.None? then None else Some(r.value + 1)
  }

  /** The items at `i` and `j` exchanged. */
  function Swapped<T>(s: seq<T>, i: nat, j: nat): (r: seq<T>)
    requires i < |s| && j < |s|
    ensures |r| == |s| && r[i] == s[j] && r[j] == s[i]
    ensures forall k :: 0 <= k < |s| && k != i && k != j ==> r[k] == s[k]
  {
    s[i := s[j]][j := s[i]]
  }

  lemma {:induction false} SwappedPermutes<T>(s: seq<T>, i: nat, j: nat)
    requires i < |s| && j < |s|
    ensures multiset(Swapped(s, i, j)) == multiset(s)
    ensures Swapped(Swapped(s, i, j), i, j) == s
  {
  }

  datatype Direction = Up | Down

  /** `handleMoveField`: the field exchanged with its neighbour in the
      given direction; nothing changes for an unknown id, for the first
      field moving up or for the last field moving down. */
  function MoveField(fields: seq<FieldData>, id: string, direction: Direction): (r: seq<FieldData>)
    ensures IndexOfId(fields, id).None? ==> r == fields
    ensures direction == Up && IndexOfId(fields, id) == Some(0) ==> r == fields
    ensures direction == Down && IndexOfId(fields, id) == Some(|fields| - 1) ==> r == fields
    ensures |r| == |fields| && multiset(r) == multiset(fields)
    ensures direction == Up && IndexOfId(fields, id).Some? && IndexOfId(fields, id).value > 0 ==>
              var i := IndexOfId(fields, id).value;
              r[i - 1] == fields[i] && r[i] == fields[i - 1] &&
              forall k :: 0 <= k < |fields| && k != i - 1 && k != i ==> r[k] == fields[k]
    ensures direction == Down && IndexOfId(fields, id).Some? && IndexOfId(fields, id).value < |fields| - 1 ==>
              var i := IndexOfId(fields, id).value;
              r[i + 1] == fields[i] && r[i] == fields[i + 1] &&
              forall k :: 0 <= k < |fields| && k != i && k != i + 1 ==> r[k] == fields[k]
  {
    var index := IndexOfId(fields, id);
    if index.None? then fields
    else
      var i := index.value;
      SwappedPermutes(fields, if i > 0 then i - 1 else 0, i);
      SwappedPermutes(fields, i, if i + 1 < |fields| then i + 1 else i);
      if direction == Up && i > 0 then Swapped(fields, i - 1, i)
      else if direction == Down && i < |fields| - 1 then Swapped(fields, i, i + 1)
      else fields
  }

  /** With distinct ids, a field moved up and then down is back in place,
      and likewise down and then up. */
  lemma {:induction false} MoveUpThenDown(fields: seq<FieldData>, id: string)
    requires DistinctIds(fields)
    requires IndexOfId(fields, id).Some? && IndexOfId(fields, id).value > 0
    ensures MoveField(MoveField(fields, id, Up), id, Down) == fields
  {
    var i := IndexOfId(fields, id).value;
    var up := Swapped(fields, i - 1, i);
    assert MoveField(fields, id, Up) == up;
    assert up[i - 1].id == id;
    assert IndexOfId(up, id) == Some(i - 1) by {
      forall j | 0 <= j < i - 1 ensures up[j].id != id {
        assert up[j] == fields[j];
      }
    }
    assert Swapped(up, i - 1, i) == fields;
  }

  lemma {:induction false} MoveDownThenUp(fields: seq<FieldData>, id: string)
    requires DistinctIds(fields)
    requires IndexOfId(fields, id).Some? && IndexOfId(fields, id).value < |fields| - 1
    ensures MoveField(MoveField(fields, id, Down), id, Up) == fields
  {
    var i := IndexOfId(fields, id).value;
    var down := Swapped(fields, i, i + 1);
    assert MoveField(fields, id, Down) == down;
    assert down[i + 1].id == id;
    assert IndexOfId(down, id) == Some(i + 1) by {
      forall j | 0 <= j < i + 1 ensures down[j].id != id {
        if j < i {
          assert down[j] == fields[j];
        } else {
          assert down[j] == fields[i + 1];
        }
      }
    }
    assert Swapped(down, i, i + 1) == fields;
  }

  /** `fields.filter(f => f.id !== id)`. */
  function WithoutField(fields: seq<FieldData>, id: string): seq<FieldData>
    decreases |fields|
  {
    if |fields| == 0 then []
    else
      var last := fields[|fields| - 1];
      WithoutField(fields[..|fields| - 1], id) + (if last.id != id then [last] else [])
  }

  /** Removal keeps exactly the fields with another id. */
  lemma {:induction false} WithoutFieldMembers(fields: seq<FieldData>, id: string, f: FieldData)
    ensures f in WithoutField(fields, id) <==> f in fields && f.id != id
    decreases |fields|
  {
    if |fields| > 0 {
      WithoutFieldMembers(fields[..|fields| - 1], id, f);
      assert fields == fields[..|fields| - 1] + [fields[|fields| - 1]];
    }
  }

  /** Removal distributes over concatenation, so the remaining fields keep
      their relative order. */
  lemma {:induction false} WithoutFieldConcat(a: seq<FieldData>, b: seq<FieldData>, id: string)
    ensures WithoutField(a + b, id) == WithoutField(a, id) + WithoutField(b, id)
    decreases |b|
  {
    if |b| > 0 {
      assert (a + b)[..|a + b| - 1] == a + b[..|b| - 1];
      WithoutFieldConcat(a, b[..|b| - 1], id);
    } else {
      assert a + b == a;
    }
  }

  /** Removing an id no field has changes nothing. */
  lemma {:induction false} WithoutAbsentField(fields: seq<FieldData>, id: string)
    requires forall i :: 0 <= i < |fields| ==> fields[i].id != id
    ensures WithoutField(fields, id) == fields
    decreases |fields|
  {
    if |fields| > 0 {
      WithoutAbsentField(fields[..|fields| - 1], id);
      assert fields == fields[..|fields| - 1] + [fields[|fields| - 1]];
    }
  }

  /** `toggleFieldInclusion`: the fields with the id have their inclusion
      flipped. */
  function Toggled(fields: seq<FieldData>, id: string): (r: seq<FieldData>)
    ensures |r| == |fields|
  {
    seq(|fields|, i requires 0 <= i < |fields| =>
      if fields[i].id == id then fields[i].(included := !fields[i].included) else fields[i])
  }

  /** A toggle changes only the inclusion of the fields with that id, and
      keeps every id and name in place. */
  lemma {:induction false} ToggledChangesOnlyTarget(fields: seq<FieldData>, id: string)
    ensures forall i :: 0 <= i < |fields| ==>
              Toggled(fields, id)[i].id == fields[i].id && Toggled(fields, id)[i].name == fields[i].name
    ensures forall i :: 0 <= i < |fields| && fields[i].id != id ==> Toggled(fields, id)[i] == fields[i]
    ensures forall i :: 0 <= i < |fields| && fields[i].id == id ==>
              Toggled(fields, id)[i].included == !fields[i].included
  {
  }

  /** Toggling twice restores the list. */
  lemma {:induction false} ToggledTwice(fields: seq<FieldData>, id: string)
    ensures Toggled(Toggled(fields, id), id) == fields
  {
    var t := Toggled(Toggled(fields, id), id);
    assert forall i :: 0 <= i < |fields| ==> t[i] == fields[i];
  }

  /** `getVulnerabilities`: one wizard page per row, named by the first
      field (included or not) with the name role; none without data or
      without such a field. */
  function Vulnerabilities(excelData: Option<ExcelData>, fields: seq<FieldData>): (r: seq<VulnerabilityData>)
    ensures excelData.None? || FindRole(fields, NameRole).None? ==> r == []
    ensures excelData.Some? && FindRole(fields, NameRole).Some? ==> |r| == |excelData.value.vulnerabilities|
  {
    if excelData.None? then []
    else
      var nameField := FindRole(fields, NameRole);
      if nameField.None? then []
      else
        var rows := excelData.value.vulnerabilities;
        seq(|rows|, i requires 0 <= i < |rows| =>
          VulnerabilityData(Or(Get(rows[i], nameField.value.name), Str("Unnamed Vulnerability")), []))
  }

  /** Every page has a truthy name: the row's cell, or the fallback when
      the cell is falsy; and every page starts without images. */
  lemma {:induction false} VulnerabilitiesNamed(excelData: Option<ExcelData>, fields: seq<FieldData>)
    requires excelData.Some? && FindRole(fields, NameRole).Some?
    ensures var r := Vulnerabilities(excelData, fields);
            var name := FindRole(fields, NameRole).value.name;
            forall i :: 0 <= i < |r| ==>
              Truthy(r[i].name) && r[i].images == [] &&
              (Truthy(Get(excelData.value.vulnerabilities[i], name)) ==> r[i].name == Get(excelData.value.vulnerabilities[i], name)) &&
              (!Truthy(Get(excelData.value.vulnerabilities[i], name)) ==> r[i].name == Str("Unnamed Vulnerability"))
  {
  }

  /** The state of the main screen. */
  class AppState {
    var excelData: Option<ExcelData>
    var fields: seq<FieldData>

    constructor()
      ensures excelData == None && fields == []
    {
      excelData := None;
      fields := [];
    }

    /** `handleExcelData`: with at least one row, stores the workbook and
        one included field per key of the first row; otherwise nothing. */
    method HandleExcelData(data: seq<Row>, sheets: Sheets)
      modifies this
      ensures |data| == 0 ==> excelData == old(excelData) && fields == old(fields)
      ensures |data| > 0 ==>
                excelData == Some(ExcelData(data, SheetOrEmpty(sheets, "Observations"), SheetOrEmpty(sheets, "Scope"))) &&
                fields == FieldsFromHeaders(Keys(data[0]))
    {
      if |data| > 0 {
        var headers := Keys(data[0]);
        excelData := Some(ExcelData(data, SheetOrEmpty(sheets, "Observations"), SheetOrEmpty(sheets, "Scope")));
        fields := FieldsFromHeaders(headers);
      }
    }

    /** `handleDragEnd`: no change without a destination or when the drop
        is where the drag began; otherwise the dragged field moves. The
        drag-and-drop library reports a source index inside the list. */
    method HandleDragEnd(destination: Option<Location>, source: Location)
      requires source.index < |fields|
      modifies this
      ensures destination.None? || destination.value == source ==> fields == old(fields)
      ensures destination.Some? && destination.value != source ==>
                fields == Moved(old(fields), source.index, destination.value.index)
      ensures excelData == old(excelData)
    {
      if destination.None? {
        return;
      }
      var target := destination.value;
      if target.droppableId == source.droppableId && target.index == source.index {
        return;
      }
      var newFields := fields;
      var removed := newFields[source.index];
      newFields := RemoveAt(newFields, source.index);
      newFields := InsertAt(newFields, target.index, removed);
      fields := newFields;
    }

    method HandleRemoveField(id: string)
      modifies this
      ensures fields == WithoutField(old(fields), id) && excelData == old(excelData)
    {
      fields := WithoutField(fields, id);
    }

    method HandleMoveField(id: string, direction: Direction)
      modifies this
      ensures fields == MoveField(old(fields), id, direction) && excelData == old(excelData)
    {
      var index := IndexOfId(fields, id);
      if index.None? {
        return;
      }
      var i := index.value;
      var newFields := fields;
      if direction == Up && i > 0 {
        newFields := newFields[i - 1 := fields[i]][i := fields[i - 1]];
      } else if direction == Down && i < |fields| - 1 {
        newFields := newFields[i := fields[i + 1]][i + 1 := fields[i]];
      }
      fields := newFields;
    }

    method ToggleFieldInclusion(id: string)
      modifies this
      ensures fields == Toggled(old(fields), id) && excelData == old(excelData)
    {
      fields := Toggled(fields, id);
    }

    /** `getVulnerabilities` on the current state. */
    function GetVulnerabilities(): seq<VulnerabilityData>
      reads this
    {
      Vulnerabilities(excelData, fields)
    }
  }
}
