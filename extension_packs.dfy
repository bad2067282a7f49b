/** The extension-pack initializers taken together: they register disjoint sets of names, so
    they may run in any order, any number of times, with the same resulting function table. */
module ExtensionPacks {
  import opened Wrappers
  import opened Registry
  import FunctionNames
  import DatetimeFunctions
  import TimexFunctions
  import TypecheckingFunctions
  import UriFunctions
  import XmlFunctions
  import RegexFunctions

  datatype Pack = Datetime | Timex | Typechecking | Uri | Xml | Regex

  /** The `add` calls of a pack's initializer. */
  function Registrations(p: Pack): seq<Registration> {
    match p
    case Datetime => DatetimeFunctions.Registrations()
    case Timex => TimexFunctions.Registrations()
    case Typechecking => TypecheckingFunctions.Registrations()
    case Uri => UriFunctions.Registrations()
    case Xml => XmlFunctions.Registrations()
    case Regex => RegexFunctions.Registrations()
  }

  /** The number of `add` calls each initializer makes. */
  function Size(p: Pack): nat {
    match p
    case Datetime => 1
    case Timex => 12
    case Typechecking => 7
    case Uri => 6
    case Xml => 2
    case Regex => 1
  }

  /** The pack whose catalogue a name comes from; the built-in and conversion catalogues
      belong to no initializer of this model. */
  function PackOf(n: FunctionNames.FunctionName): Option<Pack> {
    match n
    case Core(_) => None
    case Datetime(_) => Some(Datetime)
    case Timex(_) => Some(Timex)
    case Typechecking(_) => Some(Typechecking)
    case Uri(_) => Some(Uri)
    case Xml(_) => Some(Xml)
    case Conversion(_) => None
    case Regex(_) => Some(Regex)
  }

  /** Every name a pack registers is the key of an entry of that pack's own catalogue. */
  lemma RegisteredKeys(p: Pack, r: Registration)
    requires r in Registrations(p)
    ensures exists n :: PackOf(n) == Some(p) && FunctionNames.Key(n) == r.name
  {
    match p
    case Datetime => DatetimeKeys(r);
    case Timex => TimexKeys(r);
    case Typechecking => TypecheckingKeys(r);
    case Uri => UriKeys(r);
    case Xml => XmlKeys(r);
    case Regex => RegexKeys(r);
  }

  lemma DatetimeKeys(r: Registration)
    requires r in DatetimeFunctions.Registrations()
    ensures exists n :: PackOf(n) == Some(Datetime) && FunctionNames.Key(n) == r.name
  {
    var regs := DatetimeFunctions.Registrations();
    var i :| 0 <= i < |regs| && regs[i] == r;
    DatetimeFunctions.RegistrationsFollowEntries();
    var n := FunctionNames.Datetime(DatetimeFunctions.Entries()[i]);
    assert PackOf(n) == Some(Datetime) && FunctionNames.Key(n) == r.name;
  }

  lemma TimexKeys(r: Registration)
    requires r in TimexFunctions.Registrations()
    ensures exists n :: PackOf(n) == Some(Timex) && FunctionNames.Key(n) == r.name
  {
    var regs := TimexFunctions.Registrations();
    var i :| 0 <= i < |regs| && regs[i] == r;
    TimexFunctions.RegistrationsFollowEntries();
    var n := FunctionNames.Timex(TimexFunctions.Entries()[i]);
    assert PackOf(n) == Some(Timex) && FunctionNames.Key(n) == r.name;
  }

  lemma TypecheckingKeys(r: Registration)
    requires r in TypecheckingFunctions.Registrations()
    ensures exists n :: PackOf(n) == Some(Typechecking) && FunctionNames.Key(n) == r.name
  {
    var regs := TypecheckingFunctions.Registrations();
    var i :| 0 <= i < |regs| && regs[i] == r;
    TypecheckingFunctions.RegistrationsFollowEntries();
    var n := FunctionNames.Typechecking(TypecheckingFunctions.Entries()[i]);
    assert PackOf(n) == Some(Typechecking) && FunctionNames.Key(n) == r.name;
  }

  lemma UriKeys(r: Registration)
    requires r in UriFunctions.Registrations()
    ensures exists n :: PackOf(n) == Some(Uri) && FunctionNames.Key(n) == r.name
  {
    var regs := UriFunctions.Registrations();
    var i :| 0 <= i < |regs| && regs[i] == r;
    UriFunctions.RegistrationsFollowEntries();
    var n := FunctionNames.Uri(UriFunctions.Entries()[i]);
    assert PackOf(n) == Some(Uri) && FunctionNames.Key(n) == r.name;
  }

  lemma XmlKeys(r: Registration)
    requires r in XmlFunctions.Registrations()
    ensures exists n :: PackOf(n) == Some(Xml) && FunctionNames.Key(n) == r.name
  {
    var regs := XmlFunctions.Registrations();
    var i :| 0 <= i < |regs| && regs[i] == r;
    XmlFunctions.RegistrationsFollowEntries();
    var n := FunctionNames.Xml(XmlFunctions.Entries()[i]);
    assert PackOf(n) == Some(Xml) && FunctionNames.Key(n) == r.name;
  }

  lemma RegexKeys(r: Registration)
    requires r in RegexFunctions.Registrations()
    ensures exists n :: PackOf(n) == Some(Regex) && FunctionNames.Key(n) == r.name
  {
    var regs := RegexFunctions.Registrations();
    var i :| 0 <= i < |regs| && regs[i] == r;
    RegexFunctions.RegistrationsFollowEntries();
    var n := FunctionNames.Regex(RegexFunctions.Entries()[i]);
    assert PackOf(n) == Some(Regex) && FunctionNames.Key(n) == r.name;
  }

  /** Two different packs never register the same name. */
  lemma NamesDisjoint(p: Pack, q: Pack)
    requires p != q
    ensures Names(Registrations(p)) !! Names(Registrations(q))
  {
    forall name | name in Names(Registrations(p)) && name in Names(Registrations(q))
      ensures false
    {
      var r1 :| r1 in Registrations(p) && r1.name == name;
      var r2 :| r2 in Registrations(q) && r2.name == name;
      RegisteredKeys(p, r1);
      RegisteredKeys(q, r2);
      var n1 :| PackOf(n1) == Some(p) && FunctionNames.Key(n1) == name;
      var n2 :| PackOf(n2) == Some(q) && FunctionNames.Key(n2) == name;
      FunctionNames.KeyInjective(n1, n2);
    }
  }

  /** Within a pack, no name is registered twice. */
  lemma RegistrationsDistinct(p: Pack)
    ensures DistinctNames(Registrations(p))
    ensures |Registrations(p)| == Size(p)
  {
    match p
    case Datetime =>
      DatetimeFunctions.RegistrationsFollowEntries();
      DatetimeFunctions.RegistrationsDistinct();
    case Timex =>
      TimexFunctions.RegistrationsFollowEntries();
      TimexFunctions.RegistrationsDistinct();
    case Typechecking =>
      TypecheckingFunctions.RegistrationsFollowEntries();
      TypecheckingFunctions.RegistrationsDistinct();
    case Uri =>
      UriFunctions.RegistrationsFollowEntries();
      UriFunctions.RegistrationsDistinct();
    case Xml =>
      XmlFunctions.RegistrationsFollowEntries();
      XmlFunctions.RegistrationsDistinct();
    case Regex =>
      RegexFunctions.RegistrationsFollowEntries();
      RegexFunctions.RegistrationsDistinct();
  }

  /** Running two initializers in either order gives the same table. */
  lemma InitializersCommute(table: Table, p: Pack, q: Pack)
    ensures Apply(Apply(table, Registrations(p)), Registrations(q)) ==
            Apply(Apply(table, Registrations(q)), Registrations(p))
  {
    if p != q {
      NamesDisjoint(p, q);
      ApplyCommutes(table, Registrations(p), Registrations(q));
    }
  }

  /** Running an initializer a second time leaves the table as the first run left it. */
  lemma InitializeTwice(table: Table, p: Pack)
    ensures Apply(Apply(table, Registrations(p)), Registrations(p)) == Apply(table, Registrations(p))
  {
    ApplyIdempotent(table, Registrations(p));
  }

  /** The table does not depend on the order of an initializer's `add` calls. */
  lemma InitializeInAnyOrder(table: Table, p: Pack, reordered: seq<Registration>)
    requires multiset(reordered) == multiset(Registrations(p))
    ensures Apply(table, reordered) == Apply(table, Registrations(p))
  {
    RegistrationsDistinct(p);
    ApplyReorder(table, Registrations(p), reordered);
  }

  /** An initializer adds at most as many names as it makes `add` calls. */
  lemma InitializeGrowth(table: Table, p: Pack)
    ensures table.Keys <= Apply(table, Registrations(p)).Keys
    ensures |Apply(table, Registrations(p)).Keys| <= |table.Keys| + Size(p)
  {
    RegistrationsDistinct(p);
    ApplyKeys(table, Registrations(p));
    ApplyGrowth(table, Registrations(p));
  }
}
