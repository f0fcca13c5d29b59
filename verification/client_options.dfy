/** The functional options of client/request.go. A Go `Option` is a closure
    that assigns one field of `*Options`; here each closure is a constructor
    naming the field it assigns and the value it stores. */
module ClientOptions {

  datatype Options = Options(min: int, max: int, quantity: int)

  datatype Option = WithMin(min: int) | WithMax(max: int) | WithQuantity(quantity: int)

  /** The three fields an option can set. */
  datatype Field = Min | Max | Quantity

  function FieldOf(o: Options, f: Field): int
  {
    match f
    case Min => o.min
    case Max => o.max
    case Quantity => o.quantity
  }

  /** The field an option assigns, and the value it stores there. */
  function Target(opt: Option): Field
  {
    match opt
    case WithMin(_) => Min
    case WithMax(_) => Max
    case WithQuantity(_) => Quantity
  }

  function Stored(opt: Option): int
  {
    match opt
    case WithMin(v) => v
    case WithMax(v) => v
    case WithQuantity(v) => v
  }

  /** defaultOptions: Min 1, Max 10, Quantity 5. */
  const Defaults: Options := Options(1, 10, 5)

  /** Runs one option against the configuration: its field takes the stored
      value verbatim (no range check), every other field is left alone. */
  function Apply(o: Options, opt: Option): (r: Options)
    ensures FieldOf(r, Target(opt)) == Stored(opt)
    ensures forall f :: f != Target(opt) ==> FieldOf(r, f) == FieldOf(o, f)
  {
    match opt
    case WithMin(v) => o.(min := v)
    case WithMax(v) => o.(max := v)
    case WithQuantity(v) => o.(quantity := v)
  }

  /** The loop of NewOptions: the options run left to right. */
  function ApplyAll(o: Options, opts: seq<Option>): Options
    decreases |opts|
  {
    if |opts| == 0 then o else ApplyAll(Apply(o, opts[0]), opts[1..])
  }

  /** NewOptions: the defaults with every option applied in order. */
  function NewOptions(opts: seq<Option>): Options
  {
    ApplyAll(Defaults, opts)
  }

  /** The reference reading of "later options win": the value stored by the
      last option in `opts` that targets `f`, or `d` if none does. */
  function LastSet(opts: seq<Option>, f: Field, d: int): int
  {
    if |opts| == 0 then d
    else if Target(opts[|opts| - 1]) == f then Stored(opts[|opts| - 1])
    else LastSet(opts[..|opts| - 1], f, d)
  }

  lemma {:induction false} ApplyAllSnoc(o: Options, opts: seq<Option>, opt: Option)
    ensures ApplyAll(o, opts + [opt]) == Apply(ApplyAll(o, opts), opt)
    decreases |opts|
  {
    if |opts| > 0 {
      assert (opts + [opt])[1..] == opts[1..] + [opt];
      ApplyAllSnoc(Apply(o, opts[0]), opts[1..], opt);
    }
  }

  /** Every field of the result is the value of the last option that sets
      it, and keeps its default when no option does. */
  lemma {:induction false} NewOptionsLastWins(opts: seq<Option>, f: Field)
    ensures FieldOf(NewOptions(opts), f) == LastSet(opts, f, FieldOf(Defaults, f))
    decreases |opts|
  {
    if |opts| > 0 {
      var init := opts[..|opts| - 1];
      assert opts == init + [opts[|opts| - 1]];
      ApplyAllSnoc(Defaults, init, opts[|opts| - 1]);
      NewOptionsLastWins(init, f);
    }
  }

  /** With no options the result is the defaults (Min 1, Max 10, Quantity 5). */
  lemma NoOptionsGiveDefaults()
    ensures NewOptions([]) == Options(1, 10, 5)
  {
  }

  /** Options for different fields can be given in either order. */
  lemma DistinctFieldsCommute(o: Options, a: Option, b: Option)
    requires Target(a) != Target(b)
    ensures Apply(Apply(o, a), b) == Apply(Apply(o, b), a)
  {
    var x := Apply(Apply(o, a), b);
    var y := Apply(Apply(o, b), a);
    assert forall f :: FieldOf(x, f) == FieldOf(y, f);
    assert x.min == FieldOf(x, Min) && x.max == FieldOf(x, Max) && x.quantity == FieldOf(x, Quantity);
    assert y.min == FieldOf(y, Min) && y.max == FieldOf(y, Max) && y.quantity == FieldOf(y, Quantity);
  }

  /** A later option for the same field overrides the earlier one entirely. */
  lemma SameFieldOverrides(o: Options, a: Option, b: Option)
    requires Target(a) == Target(b)
    ensures Apply(Apply(o, a), b) == Apply(o, b)
  {
    var x := Apply(Apply(o, a), b);
    var y := Apply(o, b);
    assert x.min == FieldOf(x, Min) && x.max == FieldOf(x, Max) && x.quantity == FieldOf(x, Quantity);
    assert y.min == FieldOf(y, Min) && y.max == FieldOf(y, Max) && y.quantity == FieldOf(y, Quantity);
  }
}
