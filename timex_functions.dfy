/** The initializer of the timex extension pack (extendedFunctions/timex/index.ts): a straight-line
    sequence of `add` calls on the shared function table. */
module TimexFunctions {
  import opened Wrappers
  import opened Registry
  import FunctionNames
  import T = TimexTypes

  /** The catalogue entries the initializer registers, in the order it registers them. */
  function Entries(): seq<T.ExpressionType> {
    [T.GetNextViableDate, T.GetNextViableTime, T.GetPreviousViableDate, T.GetPreviousViableTime, T.IsDate, T.IsDateRange, T.IsTime, T.IsTimeRange, T.IsPresent, T.IsDuration, T.IsDefinite, T.TimexResolve]
  }

  /** The initializer's `add` calls, in the order the source makes them. */
  function Registrations(): seq<Registration> {
    [
      Registration(T.Name(T.GetNextViableDate), Evaluator.GetNextViableDate),
      Registration(T.Name(T.GetNextViableTime), Evaluator.GetNextViableTime),
      Registration(T.Name(T.GetPreviousViableDate), Evaluator.GetPreviousViableDate),
      Registration(T.Name(T.GetPreviousViableTime), Evaluator.GetPreviousViableTime),
      Registration(T.Name(T.IsDate), Evaluator.IsDate),
      Registration(T.Name(T.IsDateRange), Evaluator.IsDateRange),
      Registration(T.Name(T.IsTime), Evaluator.IsTime),
      Registration(T.Name(T.IsTimeRange), Evaluator.IsTimeRange),
      Registration(T.Name(T.IsPresent), Evaluator.IsPresent),
      Registration(T.Name(T.IsDuration), Evaluator.IsDuration),
      Registration(T.Name(T.IsDefinite), Evaluator.IsDefinite),
      Registration(T.Name(T.TimexResolve), Evaluator.TimexResolve)
    ]
  }

  /** Runs the initializer: the table afterwards is the old one with the `add` calls applied in
      order. */
  method Initialize(functions: FunctionTable)
    modifies functions
    ensures functions.entries == Apply(old(functions.entries), Registrations())
  {
    functions.Add(T.Name(T.GetNextViableDate), Evaluator.GetNextViableDate);
    functions.Add(T.Name(T.GetNextViableTime), Evaluator.GetNextViableTime);
    functions.Add(T.Name(T.GetPreviousViableDate), Evaluator.GetPreviousViableDate);
    functions.Add(T.Name(T.GetPreviousViableTime), Evaluator.GetPreviousViableTime);
    functions.Add(T.Name(T.IsDate), Evaluator.IsDate);
    functions.Add(T.Name(T.IsDateRange), Evaluator.IsDateRange);
    functions.Add(T.Name(T.IsTime), Evaluator.IsTime);
    functions.Add(T.Name(T.IsTimeRange), Evaluator.IsTimeRange);
    functions.Add(T.Name(T.IsPresent), Evaluator.IsPresent);
    functions.Add(T.Name(T.IsDuration), Evaluator.IsDuration);
    functions.Add(T.Name(T.IsDefinite), Evaluator.IsDefinite);
    functions.Add(T.Name(T.TimexResolve), Evaluator.TimexResolve);
  }

  /** The evaluator class the pack registers under each of its names. */
  function EvaluatorOf(t: T.ExpressionType): Evaluator {
    match t
    case GetNextViableDate => Evaluator.GetNextViableDate
    case GetNextViableTime => Evaluator.GetNextViableTime
    case GetPreviousViableDate => Evaluator.GetPreviousViableDate
    case GetPreviousViableTime => Evaluator.GetPreviousViableTime
    case IsDate => Evaluator.IsDate
    case IsDateRange => Evaluator.IsDateRange
    case IsTime => Evaluator.IsTime
    case IsTimeRange => Evaluator.IsTimeRange
    case IsPresent => Evaluator.IsPresent
    case IsDuration => Evaluator.IsDuration
    case IsDefinite => Evaluator.IsDefinite
    case TimexResolve => Evaluator.TimexResolve
  }

  /** The `add` calls follow the entry list: the i-th call registers the i-th entry's name
      with that entry's evaluator class. */
  lemma RegistrationsFollowEntries()
    ensures |Registrations()| == |Entries()| == 12
    ensures forall i :: 0 <= i < |Entries()| ==>
              Registrations()[i] == Registration(T.Name(Entries()[i]), EvaluatorOf(Entries()[i]))
    ensures forall i, j :: 0 <= i < j < |Entries()| ==> Entries()[i] != Entries()[j]
  {
  }

  /** No two `add` calls of the initializer use the same name. */
  lemma RegistrationsDistinct()
    ensures DistinctNames(Registrations())
  {
    RegistrationsFollowEntries();
    forall i, j | 0 <= i < j < |Registrations()|
      ensures Registrations()[i].name != Registrations()[j].name
    {
      FunctionNames.KeyInjective(FunctionNames.Timex(Entries()[i]), FunctionNames.Timex(Entries()[j]));
    }
  }

  /** After the initializer, each name of the pack is bound to its evaluator class. */
  lemma InitializeBinds(table: Table, t: T.ExpressionType)
    ensures Get(Apply(table, Registrations()), T.Name(t)) == Some(EvaluatorOf(t))
  {
    RegistrationsFollowEntries();
    RegistrationsDistinct();
    assert t in Entries();
    var i :| 0 <= i < |Entries()| && Entries()[i] == t;
    ApplyBinds(table, Registrations(), i);
  }

  /** Every name outside the pack keeps its entry, or its absence. */
  lemma InitializeFrame(table: Table, name: string)
    requires forall t: T.ExpressionType :: name != T.Name(t)
    ensures Get(Apply(table, Registrations()), name) == Get(table, name)
  {
    RegistrationsFollowEntries();
    assert name !in Names(Registrations());
    ApplyFrame(table, Registrations(), name);
  }
}
