/** The two change handlers of the filter form (src/App.jsx), as pure
    updates of the filter record addressed by the input's `name`. */
module FilterForm {
  import opened Wrappers
  import opened Filtering

  /** The `name` attribute of a form input: one field of the filter record. */
  datatype Field = State | AqiMin | AqiMax | HospitalAdmissions | IncomeLevel {

    /** The fields edited through a select box (`handleChange`); the other
        three are number inputs (`handleRangeChange`). */
    predicate IsText()
    {
      this == State || this == IncomeLevel
    }
  }

  /** What a field of the filter record holds. */
  datatype Value = Text(text: string) | Number(number: int)

  /** `filters[name]`. */
  function Get(f: Filters, k: Field): Value
  {
    match k
    case State => Text(f.state)
    case AqiMin => Number(f.aqiMin)
    case AqiMax => Number(f.aqiMax)
    case HospitalAdmissions => Number(f.hospitalAdmissions)
    case IncomeLevel => Text(f.incomeLevel)
  }

  /** Two filter records that agree on every field are equal. */
  lemma GetDetermines(f: Filters, g: Filters)
    requires forall k :: Get(f, k) == Get(g, k)
    ensures f == g
  {
    assert Get(f, State) == Get(g, State) && Get(f, AqiMin) == Get(g, AqiMin);
    assert Get(f, AqiMax) == Get(g, AqiMax) && Get(f, HospitalAdmissions) == Get(g, HospitalAdmissions);
    assert Get(f, IncomeLevel) == Get(g, IncomeLevel);
  }

  /** `{ ...prev, [name]: value }` for the select boxes. */
  function WithText(f: Filters, k: Field, value: string): (g: Filters)
    requires k.IsText()
    ensures Get(g, k) == Text(value)
    ensures forall k' :: k' != k ==> Get(g, k') == Get(f, k')
  {
    if k == State then f.(state := value) else f.(incomeLevel := value)
  }

  /** `parseInt(value) || 0`, with the parse given as its outcome: a failed
      parse (NaN) becomes 0. */
  function ParsedOrZero(parsed: Option<int>): (n: int)
    ensures parsed.None? ==> n == 0
    ensures parsed.Some? ==> n == parsed.value
  {
    parsed.GetOr(0)
  }

  /** `{ ...prev, [name]: parseInt(value) || 0 }` for the number inputs. */
  function WithNumber(f: Filters, k: Field, parsed: Option<int>): (g: Filters)
    requires !k.IsText()
    ensures Get(g, k) == Number(if parsed.Some? then parsed.value else 0)
    ensures forall k' :: k' != k ==> Get(g, k') == Get(f, k')
  {
    var n := ParsedOrZero(parsed);
    match k
    case AqiMin => f.(aqiMin := n)
    case AqiMax => f.(aqiMax := n)
    case HospitalAdmissions => f.(hospitalAdmissions := n)
  }

  /** An update is fully determined by the field it sets: any record that
      holds `value` in `k` and agrees with `f` elsewhere is `WithText(f, k, value)`. */
  lemma WithTextUnique(f: Filters, k: Field, value: string, g: Filters)
    requires k.IsText()
    requires Get(g, k) == Text(value)
    requires forall k' :: k' != k ==> Get(g, k') == Get(f, k')
    ensures g == WithText(f, k, value)
  {
    GetDetermines(g, WithText(f, k, value));
  }
}
