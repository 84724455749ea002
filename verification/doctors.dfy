/** The doctor directory dialog (src/components/DoctorRegistration.js): the
    list of every saved doctor record, the current user's view of it, and
    the add, delete and form-edit operations. The stored list is a value;
    the clock's id and timestamp and the confirmation answer are parameters. */
module Doctors {

  /** The form fields, named as in the form. */
  datatype Field =
    | Name | StoreName | Specialty | Experience | Location | Email | Phone | Qualifications

  datatype DoctorForm = DoctorForm(
    name: string,
    storeName: string,
    specialty: string,
    experience: string,
    location: string,
    email: string,
    phone: string,
    qualifications: string)

  function Get(form: DoctorForm, f: Field): string {
    match f
    case Name => form.name
    case StoreName => form.storeName
    case Specialty => form.specialty
    case Experience => form.experience
    case Location => form.location
    case Email => form.email
    case Phone => form.phone
    case Qualifications => form.qualifications
  }

  /** A saved record: the form's fields stamped with the owner's role and
      phone, an id and a timestamp. */
  datatype Doctor = Doctor(
    details: DoctorForm,
    role: string,
    userPhone: string,
    id: string,
    timestamp: string)

  /** The record belongs to this user in this role. */
  predicate OwnedBy(d: Doctor, phoneNumber: string, userRole: string) {
    d.userPhone == phoneNumber && d.role == userRole
  }

  /** The current user's doctors, in stored order. */
  function UserDoctors(all: seq<Doctor>, phoneNumber: string, userRole: string): (mine: seq<Doctor>)
    ensures |mine| <= |all|
    ensures forall d :: d in mine <==> d in all && OwnedBy(d, phoneNumber, userRole)
  {
    if all == [] then []
    else
      (if OwnedBy(all[0], phoneNumber, userRole) then [all[0]] else [])
        + UserDoctors(all[1..], phoneNumber, userRole)
  }

  lemma {:induction false} UserDoctorsAppend(a: seq<Doctor>, b: seq<Doctor>, phoneNumber: string, userRole: string)
    ensures UserDoctors(a + b, phoneNumber, userRole)
         == UserDoctors(a, phoneNumber, userRole) + UserDoctors(b, phoneNumber, userRole)
    decreases |a|
  {
    if a == [] {
      assert a + b == b;
    } else {
      assert (a + b)[0] == a[0];
      assert (a + b)[1..] == a[1..] + b;
      UserDoctorsAppend(a[1..], b, phoneNumber, userRole);
    }
  }

  /** "Save Information": the form's fields, stamped, appended at the end. */
  function Submit(all: seq<Doctor>, form: DoctorForm, userRole: string, phoneNumber: string,
                  freshId: string, now: string): (r: seq<Doctor>)
    ensures |r| == |all| + 1 && r[..|all|] == all
    ensures r[|all|].details == form && OwnedBy(r[|all|], phoneNumber, userRole)
    ensures r[|all|].id == freshId && r[|all|].timestamp == now
  {
    all + [Doctor(form, userRole, phoneNumber, freshId, now)]
  }

  /** The new record shows up at the end of its owner's view, and every
      other user's view is unchanged. */
  lemma SubmitExtendsOwnView(all: seq<Doctor>, form: DoctorForm, userRole: string, phoneNumber: string,
                             freshId: string, now: string, otherPhone: string, otherRole: string)
    ensures var r := Submit(all, form, userRole, phoneNumber, freshId, now);
      UserDoctors(r, phoneNumber, userRole)
        == UserDoctors(all, phoneNumber, userRole) + [r[|all|]]
    ensures (otherPhone, otherRole) != (phoneNumber, userRole) ==>
      UserDoctors(Submit(all, form, userRole, phoneNumber, freshId, now), otherPhone, otherRole)
        == UserDoctors(all, otherPhone, otherRole)
  {
    var d := Doctor(form, userRole, phoneNumber, freshId, now);
    UserDoctorsAppend(all, [d], phoneNumber, userRole);
    UserDoctorsAppend(all, [d], otherPhone, otherRole);
    assert [d][1..] == [];
  }

  /** Every record whose id differs, in order. */
  function WithoutId(all: seq<Doctor>, doctorId: string): (r: seq<Doctor>)
    ensures |r| <= |all|
    ensures forall d :: d in r <==> d in all && d.id != doctorId
  {
    if all == [] then []
    else
      (if all[0].id != doctorId then [all[0]] else []) + WithoutId(all[1..], doctorId)
  }

  /** "Delete": when the user confirms, every record with that id goes; when
      the user declines, nothing changes. */
  function Delete(all: seq<Doctor>, doctorId: string, confirmed: bool): (r: seq<Doctor>)
    ensures !confirmed ==> r == all
    ensures confirmed ==> forall d :: d in r <==> d in all && d.id != doctorId
  {
    if confirmed then WithoutId(all, doctorId) else all
  }

  lemma {:induction false} WithoutAbsentId(all: seq<Doctor>, doctorId: string)
    requires forall i :: 0 <= i < |all| ==> all[i].id != doctorId
    ensures WithoutId(all, doctorId) == all
    decreases |all|
  {
    if all != [] {
      WithoutAbsentId(all[1..], doctorId);
    }
  }

  lemma {:induction false} WithoutIdAppend(a: seq<Doctor>, b: seq<Doctor>, doctorId: string)
    ensures WithoutId(a + b, doctorId) == WithoutId(a, doctorId) + WithoutId(b, doctorId)
    decreases |a|
  {
    if a == [] {
      assert a + b == b;
    } else {
      assert (a + b)[0] == a[0];
      assert (a + b)[1..] == a[1..] + b;
      WithoutIdAppend(a[1..], b, doctorId);
    }
  }

  /** Deleting, with confirmation, a record just added under an id no other
      record has restores the list as it was. */
  lemma DeleteUndoesSubmit(all: seq<Doctor>, form: DoctorForm, userRole: string, phoneNumber: string,
                           freshId: string, now: string)
    requires forall i :: 0 <= i < |all| ==> all[i].id != freshId
    ensures Delete(Submit(all, form, userRole, phoneNumber, freshId, now), freshId, true) == all
  {
    var d := Doctor(form, userRole, phoneNumber, freshId, now);
    WithoutIdAppend(all, [d], freshId);
    WithoutAbsentId(all, freshId);
    assert [d][1..] == [];
  }

  /** Deleting the same id twice is deleting it once. */
  lemma {:induction false} DeleteIdempotent(all: seq<Doctor>, doctorId: string, confirmed: bool)
    ensures Delete(Delete(all, doctorId, confirmed), doctorId, confirmed) == Delete(all, doctorId, confirmed)
  {
    if confirmed {
      var r := WithoutId(all, doctorId);
      forall i | 0 <= i < |r| ensures r[i].id != doctorId {
        assert r[i] in r;
      }
      WithoutAbsentId(r, doctorId);
    }
  }

  /** Typing into one form field. */
  function HandleChange(form: DoctorForm, f: Field, value: string): (r: DoctorForm)
    ensures Get(r, f) == value
    ensures forall g :: g != f ==> Get(r, g) == Get(form, g)
  {
    match f
    case Name => form.(name := value)
    case StoreName => form.(storeName := value)
    case Specialty => form.(specialty := value)
    case Experience => form.(experience := value)
    case Location => form.(location := value)
    case Email => form.(email := value)
    case Phone => form.(phone := value)
    case Qualifications => form.(qualifications := value)
  }

  const AddAnotherHeading: string := "Add Another Doctor"
  const AddFirstHeading: string := "Add New Doctor Information"

  /** The heading above the form. */
  function FormHeading(all: seq<Doctor>, phoneNumber: string, userRole: string): (h: string)
    ensures h == AddAnotherHeading <==> exists d :: d in all && OwnedBy(d, phoneNumber, userRole)
  {
    var mine := UserDoctors(all, phoneNumber, userRole);
    if |mine| > 0 then
      assert mine[0] in mine;
      AddAnotherHeading
    else AddFirstHeading
  }

  /** After saving a doctor, the user is offered to add another one. */
  lemma HeadingAfterSubmit(all: seq<Doctor>, form: DoctorForm, userRole: string, phoneNumber: string,
                           freshId: string, now: string)
    ensures FormHeading(Submit(all, form, userRole, phoneNumber, freshId, now), phoneNumber, userRole)
         == AddAnotherHeading
  {
  }
}
