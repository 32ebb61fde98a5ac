/** The daily entry form (frontend/components/EntryForm.tsx): four fields the
    input handlers set, the record a submission builds from them, and the
    two callbacks a submission makes. The callbacks are recorded as the
    sequence of records passed to `onSubmit` and the number of `onClose`
    calls. */
module EntryForm {
  import opened Wrappers
  import opened Records
  import opened Folds
  import opened Constants

  /** `handleSubmit`'s record: waste is what was prepared and not sold, never
      negative; revenue and loss are priced from the selected item. */
  function BuildRecord(date: string, item: MenuItem, prepared: int, sold: int): (r: DailyRecord)
    ensures r.date == date && r.itemId == item.id && r.itemName == item.name
    ensures r.prepared == prepared && r.sold == sold
    ensures r.waste >= 0 && r.waste >= prepared - sold
    ensures r.waste == 0 || r.waste == prepared - sold
    ensures r.revenue == sold * item.unitPrice && r.loss == r.waste * item.costPerUnit
  {
    var waste := if 0 >= prepared - sold then 0 else prepared - sold;
    DailyRecord(date, item.id, item.name, prepared, sold, waste, sold * item.unitPrice, waste * item.costPerUnit)
  }

  /** With the inputs' `min="0"` respected the record is sane; when no more
      was sold than prepared the counts balance, otherwise nothing is
      counted as waste. */
  lemma BuildRecordSane(date: string, item: MenuItem, prepared: int, sold: int)
    requires prepared >= 0 && sold >= 0
    ensures Sane(BuildRecord(date, item, prepared, sold))
    ensures sold <= prepared ==> BuildRecord(date, item, prepared, sold).sold + BuildRecord(date, item, prepared, sold).waste == prepared
    ensures sold >= prepared ==> BuildRecord(date, item, prepared, sold).waste == 0 && BuildRecord(date, item, prepared, sold).loss == 0
  {
  }

  function HasId(id: string): MenuItem -> bool
  {
    (m: MenuItem) => m.id == id
  }

  /** `MENU_ITEMS.find(m => m.id === id)` */
  function ItemWithId(id: string): (r: Option<MenuItem>)
    ensures r.Some? ==> r.value in MenuItems && r.value.id == id
    ensures r.None? <==> forall i :: 0 <= i < |MenuItems| ==> MenuItems[i].id != id
  {
    Find(MenuItems, HasId(id))
  }

  /** Each catalogue id selects its own item. */
  lemma EveryIdSelectsItsItem(i: int)
    requires 0 <= i < |MenuItems|
    ensures ItemWithId(MenuItems[i].id) == Some(MenuItems[i])
  {
    CatalogueShape();
    FindFirst(MenuItems, HasId(MenuItems[i].id), i);
  }

  /** The waste and loss the form shows before submitting. */
  datatype Estimate = Estimate(waste: int, loss: int)

  class Form {
    var selectedItem: MenuItem
    var prepared: int
    var sold: int
    var date: string
    /** The records passed to `onSubmit`, in order. */
    var submitted: seq<DailyRecord>
    /** How often `onClose` was called. */
    var closed: nat

    /** The selection is always a catalogue item. */
    predicate Valid()
      reads this
    {
      selectedItem in MenuItems
    }

    /** The first item, 50 prepared and 45 sold, and today's date. */
    constructor(today: string)
      ensures Valid()
      ensures selectedItem == MenuItems[0] && prepared == 50 && sold == 45 && date == today
      ensures submitted == [] && closed == 0
    {
      selectedItem, prepared, sold, date := MenuItems[0], 50, 45, today;
      submitted, closed := [], 0;
    }

    /** The select's change handler: an unknown id changes nothing. */
    method SelectItem(id: string)
      requires Valid()
      modifies this
      ensures Valid()
      ensures selectedItem == (if ItemWithId(id).Some? then ItemWithId(id).value else old(selectedItem))
      ensures prepared == old(prepared) && sold == old(sold) && date == old(date)
      ensures submitted == old(submitted) && closed == old(closed)
    {
      var item := ItemWithId(id);
      if item.Some? {
        selectedItem := item.value;
      }
    }

    method SetPrepared(n: int)
      modifies this
      ensures prepared == n
      ensures selectedItem == old(selectedItem) && sold == old(sold) && date == old(date)
      ensures submitted == old(submitted) && closed == old(closed)
    {
      prepared := n;
    }

    method SetSold(n: int)
      modifies this
      ensures sold == n
      ensures selectedItem == old(selectedItem) && prepared == old(prepared) && date == old(date)
      ensures submitted == old(submitted) && closed == old(closed)
    {
      sold := n;
    }

    method SetDate(d: string)
      modifies this
      ensures date == d
      ensures selectedItem == old(selectedItem) && prepared == old(prepared) && sold == old(sold)
      ensures submitted == old(submitted) && closed == old(closed)
    {
      date := d;
    }

    /** `handleSubmit`: `onSubmit` once with the built record, then
        `onClose` once; the fields keep their values. */
    method Submit()
      modifies this
      ensures submitted == old(submitted) + [BuildRecord(date, selectedItem, prepared, sold)]
      ensures closed == old(closed) + 1
      ensures selectedItem == old(selectedItem) && prepared == old(prepared) && sold == old(sold) && date == old(date)
    {
      submitted := submitted + [BuildRecord(date, selectedItem, prepared, sold)];
      closed := closed + 1;
    }

    /** The close button: `onClose` only. */
    method Close()
      modifies this
      ensures closed == old(closed) + 1 && submitted == old(submitted)
      ensures selectedItem == old(selectedItem) && prepared == old(prepared) && sold == old(sold) && date == old(date)
    {
      closed := closed + 1;
    }

    /** The waste and loss preview under the inputs. */
    function Preview(): Estimate
      reads this
    {
      var w := if 0 >= prepared - sold then 0 else prepared - sold;
      Estimate(w, w * selectedItem.costPerUnit)
    }
  }

  /** The preview shows exactly the waste and loss a submission records. */
  lemma PreviewMatchesSubmission(f: Form)
    ensures f.Preview().waste == BuildRecord(f.date, f.selectedItem, f.prepared, f.sold).waste
    ensures f.Preview().loss == BuildRecord(f.date, f.selectedItem, f.prepared, f.sold).loss
  {
  }

  /** A form filled in and submitted passes one record for the chosen item,
      and closes. */
  method FillAndSubmit(today: string, id: string, prepared: int, sold: int) returns (record: DailyRecord, closed: nat)
    requires prepared >= 0 && sold >= 0
    ensures record == BuildRecord(today, if ItemWithId(id).Some? then ItemWithId(id).value else MenuItems[0], prepared, sold)
    ensures Sane(record) && closed == 1
  {
    var form := new Form(today);
    form.SelectItem(id);
    form.SetPrepared(prepared);
    form.SetSold(sold);
    form.Submit();
    record, closed := form.submitted[0], form.closed;
    BuildRecordSane(today, form.selectedItem, prepared, sold);
  }
}
