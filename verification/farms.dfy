/** The farm list page: the six-field form, adding, editing and deleting farms
    keyed by `id`, and the three statistics cards. The new farm's id (`Date.now()`)
    and creation date are inputs, as is the user's answer to the delete prompt. */
module MyFarms {
  import opened Values
  import Numbers

  /** A farm record. Ids are not guaranteed distinct; every operation is by id. */
  datatype Farm = Farm(
    id: int,
    name: string, location: string, area: string,
    soilType: string, cropType: string, irrigationType: string,
    createdAt: string)

  /** The `formData` state: the six editable fields of a farm. */
  datatype Form = Form(
    name: string, location: string, area: string,
    soilType: string, cropType: string, irrigationType: string)

  /** The `name` attribute of an input. */
  datatype Field = Name | Location | Area | SoilType | CropType | IrrigationType

  /** The page state: the list, the farm being edited (`null` when adding), the
      form and whether the modal is open. */
  datatype Page = Page(farms: seq<Farm>, editing: Option<Farm>, form: Form, showModal: bool)

  const EmptyForm := Form("", "", "", "", "", "")

  /** The value of one form field. */
  function Get(f: Form, k: Field): string {
    match k
    case Name => f.name
    case Location => f.location
    case Area => f.area
    case SoilType => f.soilType
    case CropType => f.cropType
    case IrrigationType => f.irrigationType
  }

  /** `handleInputChange`: `{...formData, [name]: value}`. */
  function HandleInputChange(f: Form, k: Field, v: string): (r: Form)
    ensures Get(r, k) == v
    ensures forall other :: other != k ==> Get(r, other) == Get(f, other)
  {
    match k
    case Name => f.(name := v)
    case Location => f.(location := v)
    case Area => f.(area := v)
    case SoilType => f.(soilType := v)
    case CropType => f.(cropType := v)
    case IrrigationType => f.(irrigationType := v)
  }

  /** The six editable fields of a farm. */
  function FormOf(farm: Farm): Form {
    Form(farm.name, farm.location, farm.area, farm.soilType, farm.cropType, farm.irrigationType)
  }

  /** `handleAddFarm`: nothing is being edited and the form is blank. */
  function HandleAddFarm(p: Page): (r: Page)
    ensures r.editing.None? && r.showModal && r.farms == p.farms
    ensures forall k :: Get(r.form, k) == ""
  {
    p.(editing := None, form := EmptyForm, showModal := true)
  }

  /** `handleEditFarm(farm)`: the form holds exactly the farm's six fields. */
  function HandleEditFarm(p: Page, farm: Farm): (r: Page)
    ensures r.editing == Some(farm) && r.showModal && r.farms == p.farms
    ensures forall k :: Get(r.form, k) == Get(FormOf(farm), k)
  {
    p.(editing := Some(farm), form := FormOf(farm), showModal := true)
  }

  /** `{...f, ...formData}`: the form overrides the six fields; id and date stay. */
  function Merge(farm: Farm, form: Form): (r: Farm)
    ensures FormOf(r) == form && r.id == farm.id && r.createdAt == farm.createdAt
  {
    farm.(name := form.name, location := form.location, area := form.area,
          soilType := form.soilType, cropType := form.cropType, irrigationType := form.irrigationType)
  }

  /** The edit branch of `handleSubmit`: every farm carrying `id` takes the form's
      fields; nothing else changes, and length and order are kept. */
  function UpdateFarms(farms: seq<Farm>, id: int, form: Form): (r: seq<Farm>)
    ensures |r| == |farms|
    ensures forall i :: 0 <= i < |farms| ==> r[i].id == farms[i].id && r[i].createdAt == farms[i].createdAt
    ensures forall i :: 0 <= i < |farms| && farms[i].id == id ==> FormOf(r[i]) == form
    ensures forall i :: 0 <= i < |farms| && farms[i].id != id ==> r[i] == farms[i]
  {
    seq(|farms|, i requires 0 <= i < |farms| => if farms[i].id == id then Merge(farms[i], form) else farms[i])
  }

  /** The farm the add branch builds. */
  function NewFarm(form: Form, id: int, createdAt: string): (r: Farm)
    ensures FormOf(r) == form && r.id == id && r.createdAt == createdAt
  {
    Farm(id, form.name, form.location, form.area, form.soilType, form.cropType, form.irrigationType, createdAt)
  }

  /** The add branch of `handleSubmit`: one farm appended at the end. */
  function AppendFarm(farms: seq<Farm>, form: Form, id: int, createdAt: string): (r: seq<Farm>)
    ensures |r| == |farms| + 1 && r[..|farms|] == farms
    ensures r[|farms|] == NewFarm(form, id, createdAt)
  {
    farms + [NewFarm(form, id, createdAt)]
  }

  /** `farms.filter(f => f.id !== farmId)`. */
  function DeleteFarm(farms: seq<Farm>, id: int): (r: seq<Farm>)
    ensures forall f :: f in r <==> f in farms && f.id != id
    ensures |r| == |farms| - CountId(farms, id)
  {
    if farms == [] then []
    else if farms[0].id == id then DeleteFarm(farms[1..], id)
    else [farms[0]] + DeleteFarm(farms[1..], id)
  }

  /** How many farms carry `id`. */
  function CountId(farms: seq<Farm>, id: int): (n: nat)
    ensures n <= |farms|
  {
    if farms == [] then 0 else (if farms[0].id == id then 1 else 0) + CountId(farms[1..], id)
  }

  /** Deleting commutes with concatenation, so the survivors keep their order. */
  lemma {:induction false} DeleteFarmSplits(a: seq<Farm>, b: seq<Farm>, id: int)
    ensures DeleteFarm(a + b, id) == DeleteFarm(a, id) + DeleteFarm(b, id)
    decreases |a|
  {
    if a != [] {
      assert (a + b)[0] == a[0];
      assert (a + b)[1..] == a[1..] + b;
      DeleteFarmSplits(a[1..], b, id);
    } else {
      assert a + b == b;
    }
  }

  /** Deleting an id no farm carries leaves the list as it was. */
  lemma {:induction false} DeleteAbsentId(farms: seq<Farm>, id: int)
    requires forall i :: 0 <= i < |farms| ==> farms[i].id != id
    ensures DeleteFarm(farms, id) == farms
    decreases |farms|
  {
    if farms != [] {
      DeleteAbsentId(farms[1..], id);
    }
  }

  /** Deleting twice is deleting once. */
  lemma DeleteIdempotent(farms: seq<Farm>, id: int)
    ensures DeleteFarm(DeleteFarm(farms, id), id) == DeleteFarm(farms, id)
  {
    var r := DeleteFarm(farms, id);
    forall i | 0 <= i < |r|
      ensures r[i].id != id
    {
      assert r[i] in r;
    }
    DeleteAbsentId(r, id);
  }

  /** `handleSubmit`: edit when a farm is being edited, add otherwise; the modal
      closes either way. */
  function HandleSubmit(p: Page, newId: int, createdAt: string): (r: Page)
    ensures !r.showModal && r.editing == p.editing && r.form == p.form
    ensures p.editing.Some? ==> r.farms == UpdateFarms(p.farms, p.editing.value.id, p.form)
    ensures p.editing.None? ==> r.farms == AppendFarm(p.farms, p.form, newId, createdAt)
  {
    var farms :=
      match p.editing
      case Some(ef) => UpdateFarms(p.farms, ef.id, p.form)
      case None => AppendFarm(p.farms, p.form, newId, createdAt);
    p.(farms := farms, showModal := false)
  }

  /** `handleDeleteFarm(farmId)` given the answer to the confirmation prompt. */
  function HandleDeleteFarm(p: Page, farmId: int, confirmed: bool): (r: Page)
    ensures !confirmed ==> r == p
    ensures confirmed ==> forall f :: f in r.farms ==> f.id != farmId
    ensures confirmed ==> forall f :: f in p.farms && f.id != farmId ==> f in r.farms
    ensures r.editing == p.editing && r.form == p.form && r.showModal == p.showModal
  {
    if confirmed then p.(farms := DeleteFarm(p.farms, farmId)) else p
  }

  /** `parseInt(farm.area)`; `None` is NaN. */
  function AreaValue(farm: Farm): Option<int> {
    Numbers.ParseInt(farm.area)
  }

  /** `farms.reduce((acc, farm) => acc + parseInt(farm.area), 0)`, left to right;
      `None` is NaN, which absorbs the rest of the sum. */
  function TotalArea(farms: seq<Farm>): (r: Option<int>)
    ensures r.Some? <==> forall i :: 0 <= i < |farms| ==> AreaValue(farms[i]).Some?
    decreases |farms|
  {
    if farms == [] then Some(0)
    else
      var init := farms[..|farms| - 1];
      var acc := TotalArea(init);
      var a := AreaValue(farms[|farms| - 1]);
      assert forall i :: 0 <= i < |init| ==> init[i] == farms[i];
      if acc.Some? && a.Some? then Some(acc.value + a.value) else None
  }

  /** The three statistics cards. */
  datatype Stats = Stats(totalFarms: nat, totalArea: Option<int>, activeCrops: nat)

  function StatsOf(farms: seq<Farm>): Stats {
    Stats(|farms|, TotalArea(farms), |farms|)
  }

  /** The running total after one more farm: its parsed area is added, or the
      total becomes NaN. */
  lemma TotalAreaAppend(farms: seq<Farm>, f: Farm)
    ensures TotalArea(farms + [f]) ==
      (if TotalArea(farms).Some? && AreaValue(f).Some? then Some(TotalArea(farms).value + AreaValue(f).value) else None)
  {
    var r := farms + [f];
    assert r[..|r| - 1] == farms;
    assert r[|r| - 1] == f;
  }

  /** Adding a farm raises both counters by one and the area by the new farm's
      parsed area; an empty list shows zero everywhere. */
  lemma StatsAfterAdd(farms: seq<Farm>, form: Form, id: int, createdAt: string)
    ensures StatsOf([]) == Stats(0, Some(0), 0)
    ensures StatsOf(AppendFarm(farms, form, id, createdAt)).totalFarms == StatsOf(farms).totalFarms + 1
    ensures StatsOf(AppendFarm(farms, form, id, createdAt)).activeCrops == StatsOf(farms).activeCrops + 1
    ensures TotalArea(farms).Some? && AreaValue(NewFarm(form, id, createdAt)).Some? ==>
      TotalArea(AppendFarm(farms, form, id, createdAt)) ==
      Some(TotalArea(farms).value + AreaValue(NewFarm(form, id, createdAt)).value)
  {
    TotalAreaAppend(farms, NewFarm(form, id, createdAt));
  }

  /** A farm whose area starts with a whole number followed by text (as in
      "25 acres") adds exactly that number to the total. */
  lemma AreaTextAddsItsNumber(farms: seq<Farm>, form: Form, id: int, createdAt: string, n: nat, unit: string)
    requires TotalArea(farms).Some?
    requires form.area == Numbers.NatToString(n) + unit && (unit == [] || IsSpace(unit[0]))
    ensures TotalArea(AppendFarm(farms, form, id, createdAt)) == Some(TotalArea(farms).value + n)
  {
    Numbers.ParseIntReadsNumberBeforeText(n, unit);
    assert AreaValue(NewFarm(form, id, createdAt)) == Some(n);
    TotalAreaAppend(farms, NewFarm(form, id, createdAt));
  }
}
