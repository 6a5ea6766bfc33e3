// The medication tracker screen: a list of medications that the user adds
// to through a form, marks as taken, and deletes.

module Medications {
  import opened Common

  datatype Medication = Medication(
    id: string, name: string, dosage: string, frequency: string, time: string, taken: bool)

  /** The add-medication form: everything but the id and the taken flag. */
  datatype Form = Form(name: string, dosage: string, frequency: string, time: string)

  const EmptyForm: Form := Form("", "", "Daily", "")

  /** Name and time are required; dosage and frequency are not checked. */
  predicate Complete(f: Form) {
    f.name != "" && f.time != ""
  }

  /** `medications.map(m => m.id === id ? { ...m, taken: !m.taken } : m)` */
  function ToggleTaken(meds: seq<Medication>, id: string): (r: seq<Medication>)
    ensures |r| == |meds|
    ensures forall i :: 0 <= i < |meds| && meds[i].id == id ==>
      r[i] == meds[i].(taken := !meds[i].taken)
    ensures forall i :: 0 <= i < |meds| && meds[i].id != id ==> r[i] == meds[i]
  {
    if meds == [] then []
    else
      var m := meds[0];
      [if m.id == id then m.(taken := !m.taken) else m] + ToggleTaken(meds[1..], id)
  }

  /** Toggling the same id twice gives back the list. */
  lemma ToggleTwice(meds: seq<Medication>, id: string)
    ensures ToggleTaken(ToggleTaken(meds, id), id) == meds
  {
    var once := ToggleTaken(meds, id);
    assert forall i :: 0 <= i < |meds| ==> once[i].id == meds[i].id;
  }

  class Tracker {
    var medications: seq<Medication>
    var form: Form
    var open: bool

    constructor ()
      ensures |medications| == 3 && form == EmptyForm && !open
      ensures forall i :: 0 <= i < |medications| ==> !medications[i].taken
    {
      medications := [
        Medication("1", "Vitamin D", "1000 IU", "Daily", "8:00 AM", false),
        Medication("2", "Blood Pressure Medicine", "10mg", "Daily", "9:00 AM", false),
        Medication("3", "Calcium", "500mg", "Daily", "8:00 PM", false)
      ];
      form := EmptyForm;
      open := false;
    }

    /** handleAdd; `newId` stands for `Date.now().toString()`. */
    method Add(newId: string) returns (added: bool)
      modifies this
      ensures added == Complete(old(form))
      ensures !added ==> medications == old(medications) && form == old(form) && open == old(open)
      ensures added ==>
        && medications == old(medications) + [Medication(newId, old(form).name, old(form).dosage,
                                                          old(form).frequency, old(form).time, false)]
        && form == EmptyForm && !open
    {
      if !Complete(form) {
        return false;
      }
      var entry := Medication(newId, form.name, form.dosage, form.frequency, form.time, false);
      medications := medications + [entry];
      form := EmptyForm;
      open := false;
      added := true;
    }

    /** handleTaken */
    method MarkTaken(id: string)
      modifies this
      ensures medications == ToggleTaken(old(medications), id)
      ensures form == old(form) && open == old(open)
    {
      medications := ToggleTaken(medications, id);
    }

    /** handleDelete */
    method Delete(id: string)
      modifies this
      ensures medications == WithoutId(old(medications), (m: Medication) => m.id, id)
      ensures form == old(form) && open == old(open)
    {
      medications := WithoutId(medications, (m: Medication) => m.id, id);
    }
  }
}
