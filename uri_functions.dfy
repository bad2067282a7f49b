/** The initializer of the uri extension pack (extendedFunctions/uri/index.ts): a straight-line
    sequence of `add` calls on the shared function table. */
module UriFunctions {
  import opened Wrappers
  import opened Registry
  import FunctionNames
  import T = UriTypes

  /** The catalogue entries the initializer registers, in the order it registers them. */
  function Entries(): seq<T.ExpressionType> {
    [T.UriHost, T.UriPath, T.UriPathAndQuery, T.UriPort, T.UriQuery, T.UriScheme]
  }

  /** The initializer's `add` calls, in the order the source makes them. */
  function Registrations(): seq<Registration> {
    [
      Registration(T.Name(T.UriHost), Evaluator.UriHost),
      Registration(T.Name(T.UriPath), Evaluator.UriPath),
      Registration(T.Name(T.UriPathAndQuery), Evaluator.UriPathAndQuery),
      Registration(T.Name(T.UriPort), Evaluator.UriPort),
      Registration(T.Name(T.UriQuery), Evaluator.UriQuery),
      Registration(T.Name(T.UriScheme), Evaluator.UriScheme)
    ]
  }

  /** Runs the initializer: the table afterwards is the old one with the `add` calls applied in
      order. */
  method Initialize(functions: FunctionTable)
    modifies functions
    ensures functions.entries == Apply(old(functions.entries), Registrations())
  {
    functions.Add(T.Name(T.UriHost), Evaluator.UriHost);
    functions.Add(T.Name(T.UriPath), Evaluator.UriPath);
    functions.Add(T.Name(T.UriPathAndQuery), Evaluator.UriPathAndQuery);
    functions.Add(T.Name(T.UriPort), Evaluator.UriPort);
    functions.Add(T.Name(T.UriQuery), Evaluator.UriQuery);
    functions.Add(T.Name(T.UriScheme), Evaluator.UriScheme);
  }

  /** The evaluator class the pack registers under each of its names. */
  function EvaluatorOf(t: T.ExpressionType): Evaluator {
    match t
    case UriHost => Evaluator.UriHost
    case UriPath => Evaluator.UriPath
    case UriPathAndQuery => Evaluator.UriPathAndQuery
    case UriPort => Evaluator.UriPort
    case UriQuery => Evaluator.UriQuery
    case UriScheme => Evaluator.UriScheme
  }

  /** The `add` calls follow the entry list: the i-th call registers the i-th entry's name
      with that entry's evaluator class. */
  lemma RegistrationsFollowEntries()
    ensures |Registrations()| == |Entries()| == 6
    ensures forall i :: 0 <= i < |Entries()| ==>
              Registrations()[i] == Registration(T.Name(Entries()[i]), EvaluatorOf(Entries()[i]))
    ensures forall i, j :: 0 <= i < j < |Entries()| ==> Entries()[i] != Entries()[j]
  {
  }

  /** No two `add` calls of the initializer use the same name. */
  lemma RegistrationsDistinct()
    ensures DistinctNames(Registrations())
  {
    RegistrationsFollowEntries();
    forall i, j | 0 <= i < j < |Registrations()|
      ensures Registrations()[i].name != Registrations()[j].name
    {
      FunctionNames.KeyInjective(FunctionNames.Uri(Entries()[i]), FunctionNames.Uri(Entries()[j]));
    }
  }

  /** After the initializer, each name of the pack is bound to its evaluator class. */
  lemma InitializeBinds(table: Table, t: T.ExpressionType)
    ensures Get(Apply(table, Registrations()), T.Name(t)) == Some(EvaluatorOf(t))
  {
    RegistrationsFollowEntries();
    RegistrationsDistinct();
    assert t in Entries();
    var i :| 0 <= i < |Entries()| && Entries()[i] == t;
    ApplyBinds(table, Registrations(), i);
  }

  /** Every name outside the pack keeps its entry, or its absence. */
  lemma InitializeFrame(table: Table, name: string)
    requires forall t: T.ExpressionType :: name != T.Name(t)
    ensures Get(Apply(table, Registrations()), name) == Get(table, name)
  {
    RegistrationsFollowEntries();
    assert name !in Names(Registrations());
    ApplyFrame(table, Registrations(), name);
  }
}
