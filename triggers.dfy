/** Trigger conditions: a field, one of six comparison operators and a stored
    value, evaluated against a saved model instance. The comparison is a closed
    dispatch over the operator on values already typed as text or integer. */
module Triggers {
  import opened Results
  import Text

  /** The six operators, by the symbol stored in `Trigger.operator`. */
  datatype Operator = LessThan | LessOrEqual | Equal | GreaterOrEqual | GreaterThan | NotEqual {

    function Symbol(): string {
      match this
      case LessThan => "<"
      case LessOrEqual => "<="
      case Equal => "="
      case GreaterOrEqual => ">="
      case GreaterThan => ">"
      case NotEqual => "!="
    }

    function Description(): string {
      match this
      case LessThan => "less than"
      case LessOrEqual => "less than or equal to"
      case Equal => "equal to"
      case GreaterOrEqual => "greater than or equal to"
      case GreaterThan => "greater than"
      case NotEqual => "not equal to"
    }
  }

  /** The operator a stored symbol names, if it is one of the six choices. */
  function ParseOperator(symbol: string): (op: Option<Operator>)
    ensures op.Some? ==> op.value.Symbol() == symbol
    ensures op.None? <==> symbol !in {"<", "<=", "=", ">=", ">", "!="}
  {
    if symbol == "<" then Some(LessThan)
    else if symbol == "<=" then Some(LessOrEqual)
    else if symbol == "=" then Some(Equal)
    else if symbol == ">=" then Some(GreaterOrEqual)
    else if symbol == ">" then Some(GreaterThan)
    else if symbol == "!=" then Some(NotEqual)
    else None
  }

  /** Every operator is stored under a symbol of its own. */
  lemma OperatorSymbolRoundTrip(op: Operator)
    ensures ParseOperator(op.Symbol()) == Some(op)
  {
  }

  /** How two values compare. */
  datatype Ordering = Less | Same | Greater

  /** Python's `<` on `str`: character by character, a proper prefix first. */
  predicate StrLess(a: string, b: string)
    decreases |a|
  {
    if a == [] then b != []
    else if b == [] then false
    else if a[0] != b[0] then a[0] < b[0]
    else StrLess(a[1..], b[1..])
  }

  lemma {:induction false} StrLessAsymmetric(a: string, b: string)
    ensures StrLess(a, b) ==> !StrLess(b, a)
    decreases |a|
  {
    if a != [] && b != [] && a[0] == b[0] {
      StrLessAsymmetric(a[1..], b[1..]);
    }
  }

  lemma {:induction false} StrLessTotal(a: string, b: string)
    ensures a != b ==> StrLess(a, b) || StrLess(b, a)
    decreases |a|
  {
    if a != [] && b != [] && a[0] == b[0] {
      if a[1..] == b[1..] {
        assert a == [a[0]] + a[1..] && b == [b[0]] + b[1..];
      }
      StrLessTotal(a[1..], b[1..]);
    }
  }

  lemma {:induction false} StrLessTransitive(a: string, b: string, c: string)
    requires StrLess(a, b) && StrLess(b, c)
    ensures StrLess(a, c)
    decreases |a|
  {
    if a != [] && a[0] == b[0] && b[0] == c[0] {
      StrLessTransitive(a[1..], b[1..], c[1..]);
    }
  }

  function CompareInts(a: int, b: int): (o: Ordering)
    ensures o == Less <==> a < b
    ensures o == Same <==> a == b
    ensures o == Greater <==> a > b
  {
    if a < b then Less else if a == b then Same else Greater
  }

  /** String comparison is a strict total order: exactly one of `a < b`,
      `a == b`, `b < a` holds. */
  function CompareStrings(a: string, b: string): (o: Ordering)
    ensures o == Less <==> StrLess(a, b)
    ensures o == Same <==> a == b
    ensures o == Greater <==> StrLess(b, a)
  {
    StrLessAsymmetric(a, b);
    StrLessTotal(a, b);
    if a == b then
      assert !StrLess(a, a) by { StrLessAsymmetric(a, a); }
      Same
    else if StrLess(a, b) then Less
    else Greater
  }

  /** The dispatch table: whether `left op right` holds, given how they compare. */
  function Satisfies(op: Operator, o: Ordering): bool {
    match op
    case LessThan => o == Less
    case LessOrEqual => o != Greater
    case Equal => o == Same
    case GreaterOrEqual => o != Less
    case GreaterThan => o == Greater
    case NotEqual => o != Same
  }

  /** The operators keep their ordinary relations to one another. */
  lemma OperatorLaws(o: Ordering)
    ensures Satisfies(NotEqual, o) == !Satisfies(Equal, o)
    ensures Satisfies(GreaterOrEqual, o) == !Satisfies(LessThan, o)
    ensures Satisfies(LessOrEqual, o) == !Satisfies(GreaterThan, o)
    ensures Satisfies(LessOrEqual, o) == (Satisfies(LessThan, o) || Satisfies(Equal, o))
    ensures Satisfies(GreaterOrEqual, o) == (Satisfies(GreaterThan, o) || Satisfies(Equal, o))
  {
  }

  /** An attribute value of a saved instance. */
  datatype Value = Str(text: string) | Int(number: int)

  /** A saved model instance: its primary key and its other attributes. */
  datatype Instance = Instance(id: int, attributes: map<string, Value>)

  /** `getattr(instance, field)` guarded by `hasattr`; every instance has `id`. */
  function Attribute(inst: Instance, field: string): (r: Option<Value>)
    ensures r.Some? <==> field == "id" || field in inst.attributes
    ensures field == "id" ==> r == Some(Int(inst.id))
    ensures r.Some? && field != "id" ==> r.value == inst.attributes[field]
  {
    if field == "id" then Some(Int(inst.id))
    else if field in inst.attributes then Some(inst.attributes[field])
    else None
  }

  /** One condition of a trigger set. `value` is stored as text. */
  datatype Trigger = Trigger(field: string, operator: Operator, value: string)

  /** The condition a new trigger starts with: `id = 1`. */
  const DefaultTrigger := Trigger("id", Equal, "1")

  /** A numeric attribute compared with stored text that is not an integer. */
  datatype TriggerError = NotANumber(text: string)

  /** `Trigger.trigger_fires`: false when the instance lacks the field; text
      compared with text when the attribute is a string; numbers compared
      otherwise. */
  function TriggerFires(t: Trigger, inst: Instance): (r: Result<bool, TriggerError>)
    ensures Attribute(inst, t.field).None? ==> r == Ok(false)
    ensures r.Err? <==> Attribute(inst, t.field).Some? && Attribute(inst, t.field).value.Int?
                        && Text.ParseInt(t.value).Err?
    ensures r.Err? ==> r.error == NotANumber(t.value)
  {
    match Attribute(inst, t.field)
    case None => Ok(false)
    case Some(Str(s)) => Ok(Satisfies(t.operator, CompareStrings(s, t.value)))
    case Some(Int(n)) =>
      match Text.ParseInt(t.value)
      case Ok(m) => Ok(Satisfies(t.operator, CompareInts(n, m)))
      case Err(_) => Err(NotANumber(t.value))
  }

  /** On a text attribute each operator means its lexicographic relation. */
  lemma TextComparison(t: Trigger, inst: Instance, s: string)
    requires Attribute(inst, t.field) == Some(Str(s))
    ensures t.operator == LessThan ==> TriggerFires(t, inst) == Ok(StrLess(s, t.value))
    ensures t.operator == LessOrEqual ==> TriggerFires(t, inst) == Ok(StrLess(s, t.value) || s == t.value)
    ensures t.operator == Equal ==> TriggerFires(t, inst) == Ok(s == t.value)
    ensures t.operator == GreaterOrEqual ==> TriggerFires(t, inst) == Ok(!StrLess(s, t.value))
    ensures t.operator == GreaterThan ==> TriggerFires(t, inst) == Ok(StrLess(t.value, s))
    ensures t.operator == NotEqual ==> TriggerFires(t, inst) == Ok(s != t.value)
  {
    StrLessAsymmetric(s, t.value);
    StrLessTotal(s, t.value);
  }

  /** On a numeric attribute each operator means its arithmetic relation with
      the stored integer. */
  lemma NumericComparison(t: Trigger, inst: Instance, n: int, m: int)
    requires Attribute(inst, t.field) == Some(Int(n)) && Text.ParseInt(t.value) == Ok(m)
    ensures t.operator == LessThan ==> TriggerFires(t, inst) == Ok(n < m)
    ensures t.operator == LessOrEqual ==> TriggerFires(t, inst) == Ok(n <= m)
    ensures t.operator == Equal ==> TriggerFires(t, inst) == Ok(n == m)
    ensures t.operator == GreaterOrEqual ==> TriggerFires(t, inst) == Ok(n >= m)
    ensures t.operator == GreaterThan ==> TriggerFires(t, inst) == Ok(n > m)
    ensures t.operator == NotEqual ==> TriggerFires(t, inst) == Ok(n != m)
  {
  }

  /** Swapping `=` for `!=` negates a trigger on a present field; on an absent
      field both are false. */
  lemma NotEqualNegatesEqual(t: Trigger, inst: Instance)
    requires t.operator == Equal && TriggerFires(t, inst).Ok?
    ensures var u := t.(operator := NotEqual);
      TriggerFires(u, inst) == Ok(if Attribute(inst, t.field).Some? then !TriggerFires(t, inst).value else false)
  {
  }

  /** Triggers `0 .. k-1` all fire. */
  predicate AllFireBefore(triggers: seq<Trigger>, k: int, inst: Instance)
    requires 0 <= k <= |triggers|
  {
    forall i :: 0 <= i < k ==> TriggerFires(triggers[i], inst) == Ok(true)
  }

  /** `TriggerSet.all_triggers_fire`: the triggers in order, stopping at the
      first one that does not fire. */
  function AllTriggersFire(triggers: seq<Trigger>, inst: Instance): (r: Result<bool, TriggerError>)
    ensures r == Ok(true) <==> AllFireBefore(triggers, |triggers|, inst)
  {
    if triggers == [] then Ok(true)
    else match TriggerFires(triggers[0], inst)
      case Err(e) => Err(e)
      case Ok(false) => Ok(false)
      case Ok(true) =>
        var rest := AllTriggersFire(triggers[1..], inst);
        assert AllFireBefore(triggers, |triggers|, inst) <==> AllFireBefore(triggers[1..], |triggers| - 1, inst) by {
          forall i | 1 <= i < |triggers| ensures triggers[i] == triggers[1..][i - 1] { }
        }
        rest
  }

  /** Evaluation stops at the first trigger that is false: whatever follows it,
      even a trigger that could not be evaluated, is never looked at. */
  lemma {:induction false} StopsAtFirstFalse(triggers: seq<Trigger>, k: nat, rest: seq<Trigger>, inst: Instance)
    requires k < |triggers| && AllFireBefore(triggers, k, inst) && TriggerFires(triggers[k], inst) == Ok(false)
    ensures AllTriggersFire(triggers[..k + 1] + rest, inst) == Ok(false)
  {
    var ts := triggers[..k + 1] + rest;
    assert ts[0] == triggers[0];
    if k > 0 {
      assert TriggerFires(triggers[0], inst) == Ok(true);
      assert ts[1..] == triggers[1..][..k] + rest;
      assert AllFireBefore(triggers[1..], k - 1, inst) by {
        forall i | 0 <= i < k - 1 ensures TriggerFires(triggers[1..][i], inst) == Ok(true) {
          assert triggers[1..][i] == triggers[i + 1];
        }
      }
      StopsAtFirstFalse(triggers[1..], k - 1, rest, inst);
    }
  }

  /** An error can only come from the first trigger that does not fire. */
  lemma {:induction false} ErrorFromFirstNonFiring(triggers: seq<Trigger>, inst: Instance)
    requires AllTriggersFire(triggers, inst).Err?
    ensures exists k :: 0 <= k < |triggers| && AllFireBefore(triggers, k, inst) &&
                        TriggerFires(triggers[k], inst) == Err(AllTriggersFire(triggers, inst).error)
  {
    if TriggerFires(triggers[0], inst).Ok? {
      ErrorFromFirstNonFiring(triggers[1..], inst);
      var k :| 0 <= k < |triggers[1..]| && AllFireBefore(triggers[1..], k, inst) &&
               TriggerFires(triggers[1..][k], inst) == Err(AllTriggersFire(triggers[1..], inst).error);
      assert AllFireBefore(triggers, k + 1, inst) by {
        forall i | 0 <= i < k + 1 ensures TriggerFires(triggers[i], inst) == Ok(true) {
          if i > 0 {
            assert triggers[i] == triggers[1..][i - 1];
          }
        }
      }
      assert triggers[k + 1] == triggers[1..][k];
    } else {
      assert AllFireBefore(triggers, 0, inst);
    }
  }

  // The trigger as the source evaluates it, for the finding on `=`.

  /** Python's comparison tokens; `eval` raises `SyntaxError` on any other
      text between two operands. */
  predicate IsPythonComparison(symbol: string) {
    symbol in {"<", "<=", "==", ">=", ">", "!="}
  }

  /** The text the source hands to `eval`: string operands are wrapped in
      single quotes, numbers are written as they are. */
  function Expression(v: Value, t: Trigger): string {
    match v
    case Str(s) => "'" + s + "'" + t.operator.Symbol() + "'" + t.value + "'"
    case Int(n) => Text.FormatInt(n) + t.operator.Symbol() + t.value
  }

  datatype EvalError = SyntaxError(expression: string) | NotEvaluable(expression: string)

  /** `trigger_fires` as written: the composed expression only evaluates when
      the operator symbol is a Python comparison token. For the five tokens
      that are, `eval` is taken to agree with the comparison dispatch. */
  function TriggerFiresAsWritten(t: Trigger, inst: Instance): (r: Result<bool, EvalError>)
    ensures Attribute(inst, t.field).None? ==> r == Ok(false)
    ensures (r.Err? && r.error.SyntaxError?) <==> Attribute(inst, t.field).Some? && t.operator == Equal
  {
    match Attribute(inst, t.field)
    case None => Ok(false)
    case Some(v) =>
      if !IsPythonComparison(t.operator.Symbol()) then Err(SyntaxError(Expression(v, t)))
      else match TriggerFires(t, inst)
        case Ok(b) => Ok(b)
        case Err(_) => Err(NotEvaluable(Expression(v, t)))
  }

  /** As written, every `=` trigger on a present field raises instead of
      comparing, while the dispatch model compares for equality. */
  lemma EqualRaisesAsWritten(t: Trigger, inst: Instance)
    requires t.operator == Equal && Attribute(inst, t.field).Some?
    ensures TriggerFiresAsWritten(t, inst) == Err(SyntaxError(Expression(Attribute(inst, t.field).value, t)))
    ensures Attribute(inst, t.field).value.Str? ==>
      TriggerFires(t, inst) == Ok(Attribute(inst, t.field).value.text == t.value)
  {
    assert !IsPythonComparison("=");
  }

  /** The concrete case: `status = failed` on an instance whose status is
      `failed`. */
  lemma FailedStatusCounterexample()
    ensures var t := Trigger("status", Equal, "failed");
            var inst := Instance(7, map["status" := Str("failed")]);
            && TriggerFiresAsWritten(t, inst) == Err(SyntaxError("'failed'='failed'"))
            && TriggerFires(t, inst) == Ok(true)
  {
    var t := Trigger("status", Equal, "failed");
    var inst := Instance(7, map["status" := Str("failed")]);
    assert Attribute(inst, "status") == Some(Str("failed"));
    assert Expression(Str("failed"), t) == "'failed'='failed'";
    EqualRaisesAsWritten(t, inst);
  }
}
