/** The initializer of the xml extension pack (extendedFunctions/xml/index.ts): a straight-line
    sequence of `add` calls on the shared function table. */
module XmlFunctions {
  import opened Wrappers
  import opened Registry
  import FunctionNames
  import T = XmlTypes

  /** The catalogue entries the initializer registers, in the order it registers them. */
  function Entries(): seq<T.ExpressionType> {
    [T.XML, T.XPath]
  }

  /** The initializer's `add` calls, in the order the source makes them. */
  function Registrations(): seq<Registration> {
    [
      Registration(T.Name(T.XML), Evaluator.XML),
      Registration(T.Name(T.XPath), Evaluator.XPath)
    ]
  }

  /** Runs the initializer: the table afterwards is the old one with the `add` calls applied in
      order. */
  method Initialize(functions: FunctionTable)
    modifies functions
    ensures functions.entries == Apply(old(functions.entries), Registrations())
  {
    functions.Add(T.Name(T.XML), Evaluator.XML);
    functions.Add(T.Name(T.XPath), Evaluator.XPath);
  }

  /** The evaluator class the pack registers under each of its names. */
  function EvaluatorOf(t: T.ExpressionType): Evaluator {
    match t
    case XML => Evaluator.XML
    case XPath => Evaluator.XPath
  }

  /** The `add` calls follow the entry list: the i-th call registers the i-th entry's name
      with that entry's evaluator class. */
  lemma RegistrationsFollowEntries()
    ensures |Registrations()| == |Entries()| == 2
    ensures forall i :: 0 <= i < |Entries()| ==>
              Registrations()[i] == Registration(T.Name(Entries()[i]), EvaluatorOf(Entries()[i]))
    ensures forall i, j :: 0 <= i < j < |Entries()| ==> Entries()[i] != Entries()[j]
  {
  }

  /** No two `add` calls of the initializer use the same name. */
  lemma RegistrationsDistinct()
    ensures DistinctNames(Registrations())
  {
    RegistrationsFollowEntries();
    forall i, j | 0 <= i < j < |Registrations()|
      ensures Registrations()[i].name != Registrations()[j].name
    {
      FunctionNames.KeyInjective(FunctionNames.Xml(Entries()[i]), FunctionNames.Xml(Entries()[j]));
    }
  }

  /** After the initializer, each name of the pack is bound to its evaluator class. */
  lemma InitializeBinds(table: Table, t: T.ExpressionType)
    ensures Get(Apply(table, Registrations()), T.Name(t)) == Some(EvaluatorOf(t))
  {
    RegistrationsFollowEntries();
    RegistrationsDistinct();
    assert t in Entries();
    var i :| 0 <= i < |Entries()| && Entries()[i] == t;
    ApplyBinds(table, Registrations(), i);
  }

  /** Every name outside the pack keeps its entry, or its absence. */
  lemma InitializeFrame(table: Table, name: string)
    requires forall t: T.ExpressionType :: name != T.Name(t)
    ensures Get(Apply(table, Registrations()), name) == Get(table, name)
  {
    RegistrationsFollowEntries();
    assert name !in Names(Registrations());
    ApplyFrame(table, Registrations(), name);
  }
}
