/** The medicine catalogue page: the search box over the catalogue, the
    add/edit dialog and the request its submit button sends, and the
    delete button. */
module Medicines {
  import opened Optional
  import opened Lists
  import opened Text
  import opened Stock

  // ---------------------------------------------------------------------
  // Search

  /** A medicine is listed when the term occurs, ignoring case, in its
      name, generic name or category. */
  predicate MedicineMatches(m: Medicine, term: string) {
    MatchesIgnoringCase(m.name, term) || MatchesIgnoringCase(m.genericName, term) ||
    MatchesIgnoringCase(m.category, term)
  }

  function MedicineMatchTest(term: string): Medicine -> bool {
    (m: Medicine) => MedicineMatches(m, term)
  }

  /** The search effect: the matching medicines, in catalogue order; an
      empty term keeps the whole catalogue. */
  function SearchMedicines(medicines: seq<Medicine>, term: string): (r: seq<Medicine>)
    ensures IsSubsequence(r, medicines)
    ensures forall m :: m in r ==> m in medicines && MedicineMatches(m, term)
    ensures forall m :: m in medicines && MedicineMatches(m, term) ==> m in r
    ensures term == "" ==> r == medicines
  {
    assert term == "" ==> forall m :: m in medicines ==> MedicineMatches(m, term) by {
      forall m | term == "" && m in medicines ensures MedicineMatches(m, term) {
        EmptyTermMatches(m.name);
      }
    }
    Filter(medicines, MedicineMatchTest(term))
  }

  /** Typing the term in upper or lower case lists the same medicines. */
  lemma SearchIgnoresTermCase(medicines: seq<Medicine>, term: string)
    ensures SearchMedicines(medicines, Lower(term)) == SearchMedicines(medicines, term)
  {
    forall m | m in medicines ensures MedicineMatches(m, Lower(term)) == MedicineMatches(m, term) {
      MatchesIgnoresTermCase(m.name, term);
      MatchesIgnoresTermCase(m.genericName, term);
      MatchesIgnoresTermCase(m.category, term);
    }
    FilterCongruent(medicines, MedicineMatchTest(Lower(term)), MedicineMatchTest(term));
  }

  /** A longer term never lists more: whatever matches `term + more`
      also matches `term`. */
  lemma LongerTermNarrows(medicines: seq<Medicine>, term: string, more: string)
    ensures |SearchMedicines(medicines, term + more)| <= |SearchMedicines(medicines, term)|
  {
    forall m | m in medicines && MedicineMatches(m, term + more) ensures MedicineMatches(m, term) {
      IncludesPrefix(Lower(m.name), term, more);
      IncludesPrefix(Lower(m.genericName), term, more);
      IncludesPrefix(Lower(m.category), term, more);
    }
    FilterMonotone(medicines, MedicineMatchTest(term + more), MedicineMatchTest(term));
  }

  /** If the lower-cased `term + more` occurs in `field`, so does the
      lower-cased `term`. */
  lemma IncludesPrefix(field: string, term: string, more: string)
    ensures Includes(field, Lower(term + more)) ==> Includes(field, Lower(term))
  {
    IncludesAt(field, Lower(term + more));
    IncludesAt(field, Lower(term));
    if Includes(field, Lower(term + more)) {
      var i :| OccursAt(field, Lower(term + more), i);
      assert Lower(term + more)[..|term|] == Lower(term);
      assert field[i..i + |term|] == field[i..i + |term| + |more|][..|term|];
      assert OccursAt(field, Lower(term), i);
    }
  }

  // ---------------------------------------------------------------------
  // The dialog form and the request it sends

  /** A number input of the form: the text typed into it, or the value
      `handleEdit` copied from the stored medicine (possibly missing). */
  datatype NumberField = Typed(text: string) | Copied(value: Option<int>)

  /** The dialog's seven fields. */
  datatype MedicineForm = MedicineForm(
    name: string,
    genericName: string,
    category: string,
    manufacturer: string,
    description: string,
    price: NumberField,
    minStockLevel: NumberField)

  /** The form of a fresh dialog, and what closing the dialog restores:
      every field empty. */
  const BlankForm := MedicineForm("", "", "", "", "", Typed(""), Typed(""))

  /** `handleEdit`'s form: the seven fields of the medicine, a missing
      description shown as an empty one. */
  function EditForm(m: Medicine): (f: MedicineForm)
    ensures f.name == m.name && f.genericName == m.genericName && f.category == m.category
    ensures f.manufacturer == m.manufacturer
    ensures f.price == Copied(m.price) && f.minStockLevel == Copied(m.minStockLevel)
  {
    MedicineForm(m.name, m.genericName, m.category, m.manufacturer, m.description.GetOr(""),
                 Copied(m.price), Copied(m.minStockLevel))
  }

  /** The description field shows the stored description when there is
      one and is empty otherwise; the stored catalogue data can be read
      back from the form, except that a missing and an empty description
      look the same. */
  lemma EditFormKeepsMedicine(m: Medicine, n: Medicine)
    ensures m.description.Some? ==> EditForm(m).description == m.description.value
    ensures m.description.None? ==> EditForm(m).description == ""
    ensures EditForm(m) == EditForm(n) <==>
      m.name == n.name && m.genericName == n.genericName && m.category == n.category &&
      m.manufacturer == n.manufacturer && m.description.GetOr("") == n.description.GetOr("") &&
      m.price == n.price && m.minStockLevel == n.minStockLevel
  {
  }

  /** What a submit sends: an update of the edited medicine, or a new one. */
  datatype SaveRequest =
    | UpdateMedicine(id: string, form: MedicineForm)
    | CreateMedicine(form: MedicineForm)

  /** `handleSubmit`'s request: the form, unchanged, as an update of the
      medicine being edited or, when none is, as a new medicine. */
  function SubmitRequest(editing: Option<Medicine>, f: MedicineForm): (r: SaveRequest)
    ensures r.form == f
    ensures r.CreateMedicine? <==> editing.None?
    ensures r.UpdateMedicine? ==> r.id == editing.value.id
  {
    if editing.Some? then UpdateMedicine(editing.value.id, f) else CreateMedicine(f)
  }

  /** Opening a medicine for editing and saving at once sends back its
      own catalogue data under its own id. */
  lemma EditUnchangedSendsMedicine(m: Medicine)
    ensures SubmitRequest(Some(m), EditForm(m)) == UpdateMedicine(m.id, EditForm(m))
    ensures SubmitRequest(Some(m), EditForm(m)).form.name == m.name
  {
  }

  /** The dialog's texts. */
  datatype DialogView = DialogView(title: string, description: string, submitLabel: string)

  function Dialog(editing: Option<Medicine>): DialogView {
    if editing.Some? then DialogView("Edit Medicine", "Update medicine information", "Update Medicine")
    else DialogView("Add New Medicine", "Add a new medicine to your inventory", "Add Medicine")
  }

  /** The dialog says "Edit" exactly when the submit will update. */
  lemma DialogMatchesRequest(editing: Option<Medicine>, f: MedicineForm)
    ensures Dialog(editing).title == "Edit Medicine" <==> SubmitRequest(editing, f).UpdateMedicine?
  {
  }

  // ---------------------------------------------------------------------
  // The table

  /** A table row: name, generic name, category, manufacturer, price and
      minimum stock, as stored. */
  datatype MedicineRow = MedicineRow(
    name: string, genericName: string, category: string, manufacturer: string,
    price: Option<int>, minStockLevel: Option<int>)

  datatype MedicinesTable = NoMedicinesFound | MedicineRows(rows: seq<MedicineRow>)

  /** "No medicines found" for an empty list, otherwise one row per
      medicine in the order given. */
  function RenderTable(shown: seq<Medicine>): (t: MedicinesTable)
    ensures t.NoMedicinesFound? <==> |shown| == 0
    ensures t.MedicineRows? ==> |t.rows| == |shown| && forall i :: 0 <= i < |shown| ==>
      t.rows[i].name == shown[i].name && t.rows[i].genericName == shown[i].genericName &&
      t.rows[i].category == shown[i].category && t.rows[i].manufacturer == shown[i].manufacturer &&
      t.rows[i].price == shown[i].price && t.rows[i].minStockLevel == shown[i].minStockLevel
  {
    if |shown| == 0 then NoMedicinesFound
    else MedicineRows(seq(|shown|, i requires 0 <= i < |shown| =>
      MedicineRow(shown[i].name, shown[i].genericName, shown[i].category, shown[i].manufacturer,
                  shown[i].price, shown[i].minStockLevel)))
  }

  // ---------------------------------------------------------------------
  // The page

  /** The answer to `getMedicines()`: a failure, or a body whose
      `medicines` list may be missing (`|| []`). */
  datatype MedicinesResponse = RequestFailed | Received(medicines: Option<seq<Medicine>>)

  class MedicinesPage {
    var medicines: seq<Medicine>
    var filteredMedicines: seq<Medicine>
    var searchTerm: string
    var loading: bool
    var dialogOpen: bool
    var editingMedicine: Option<Medicine>
    var formData: MedicineForm

    /** The filter effect has run: the list shown is the search result. */
    predicate Valid()
      reads this
    {
      filteredMedicines == SearchMedicines(medicines, searchTerm)
    }

    constructor()
      ensures Valid() && medicines == [] && searchTerm == "" && loading
      ensures !dialogOpen && editingMedicine == None && formData == BlankForm
    {
      medicines := [];
      filteredMedicines := [];
      searchTerm := "";
      loading := true;
      dialogOpen := false;
      editingMedicine := None;
      formData := BlankForm;
    }

    /** `fetchMedicines`: on an answer the catalogue is replaced (`|| []`)
        and the search re-applied; on a failure it stays. */
    method FetchMedicines(response: MedicinesResponse)
      requires Valid()
      modifies this
      ensures Valid() && !loading && searchTerm == old(searchTerm)
      ensures response.RequestFailed? ==> medicines == old(medicines)
      ensures response.Received? ==> medicines == response.medicines.GetOr([])
      ensures dialogOpen == old(dialogOpen) && editingMedicine == old(editingMedicine) && formData == old(formData)
    {
      if response.Received? {
        medicines := response.medicines.GetOr([]);
        filteredMedicines := SearchMedicines(medicines, searchTerm);
      }
      loading := false;
    }

    /** Typing in the search box. */
    method SetSearchTerm(term: string)
      requires Valid()
      modifies this
      ensures Valid() && searchTerm == term && medicines == old(medicines) && loading == old(loading)
      ensures dialogOpen == old(dialogOpen) && editingMedicine == old(editingMedicine) && formData == old(formData)
    {
      searchTerm := term;
      filteredMedicines := SearchMedicines(medicines, term);
    }

    /** A field of the dialog edited: `setFormData({ ...formData, ... })`. */
    method SetFormData(f: MedicineForm)
      requires Valid()
      modifies this
      ensures Valid() && formData == f
      ensures medicines == old(medicines) && searchTerm == old(searchTerm) && loading == old(loading)
      ensures dialogOpen == old(dialogOpen) && editingMedicine == old(editingMedicine)
    {
      formData := f;
    }

    /** "Add Medicine": the dialog opens on whatever form is current. */
    method OpenAddDialog()
      requires Valid()
      modifies this
      ensures Valid() && dialogOpen
      ensures medicines == old(medicines) && searchTerm == old(searchTerm) && loading == old(loading)
      ensures editingMedicine == old(editingMedicine) && formData == old(formData)
    {
      dialogOpen := true;
    }

    /** `handleEdit`: the dialog opens on the medicine's data. */
    method HandleEdit(m: Medicine)
      requires Valid()
      modifies this
      ensures Valid() && dialogOpen && editingMedicine == Some(m) && formData == EditForm(m)
      ensures medicines == old(medicines) && searchTerm == old(searchTerm) && loading == old(loading)
    {
      editingMedicine := Some(m);
      formData := EditForm(m);
      dialogOpen := true;
    }

    /** `handleCloseDialog`: the dialog closes, nothing is being edited and
        every field is empty again. */
    method HandleCloseDialog()
      requires Valid()
      modifies this
      ensures Valid() && !dialogOpen && editingMedicine == None && formData == BlankForm
      ensures medicines == old(medicines) && searchTerm == old(searchTerm) && loading == old(loading)
    {
      dialogOpen := false;
      editingMedicine := None;
      formData := BlankForm;
    }

    /** `handleSubmit`: sends the form as an update or a creation. When the
        server accepts it the dialog is closed and reset; when it refuses,
        the dialog stays as it was. The catalogue is reloaded by a separate
        `FetchMedicines`. */
    method HandleSubmit(accepted: bool) returns (request: SaveRequest)
      requires Valid()
      modifies this
      ensures request == SubmitRequest(old(editingMedicine), old(formData))
      ensures Valid() && medicines == old(medicines) && searchTerm == old(searchTerm) && loading == old(loading)
      ensures accepted ==> !dialogOpen && editingMedicine == None && formData == BlankForm
      ensures !accepted ==> dialogOpen == old(dialogOpen) && editingMedicine == old(editingMedicine) && formData == old(formData)
    {
      if editingMedicine.Some? {
        request := UpdateMedicine(editingMedicine.value.id, formData);
      } else {
        request := CreateMedicine(formData);
      }
      if accepted {
        HandleCloseDialog();
      }
    }

    /** `handleDelete`: the id is sent only when the confirmation is
        answered yes; the page itself is left as it is. */
    method HandleDelete(id: string, confirmed: bool) returns (request: Option<string>)
      ensures request.Some? <==> confirmed
      ensures request.Some? ==> request.value == id
    {
      request := if confirmed then Some(id) else None;
    }
  }
}
