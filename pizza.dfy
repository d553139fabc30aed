/** The pizza half of the program: the Pizza product, the builders that each hard-code
    one recipe, the Cook director, and the line Pizza::displayPizza writes. */
module Pizzas {
  import opened Lines

  // ---------------------------------------------------------------------------
  // Product state, by value
  // ---------------------------------------------------------------------------

  datatype PizzaValue = PizzaValue(dough: string, sauce: string, topping: string)

  /** A default-constructed Pizza: every field empty. */
  const EmptyPizza: PizzaValue := PizzaValue("", "", "")

  /** The three concrete builders: HawaiianPizzaBuilder, SpicyPizzaBuilder and
      MilkowskyPizzaBuilder. */
  datatype Recipe = Hawaiian | Spicy | Milkowsky

  /** Only the Hawaiian builder uses pan dough; the other two use thin dough. */
  function DoughOf(r: Recipe): (d: string)
    ensures d == "Pan Dough" <==> r == Hawaiian
    ensures d == "Thin Dough" <==> r != Hawaiian
  {
    match r
    case Hawaiian => "Pan Dough"
    case Spicy => "Thin Dough"
    case Milkowsky => "Thin Dough"
  }

  function SauceOf(r: Recipe): string
  {
    match r
    case Hawaiian => "Hawaiian Sauce"
    case Spicy => "Spicy Tomato Sauce"
    case Milkowsky => "Tomato Sauce"
  }

  function ToppingOf(r: Recipe): string
  {
    match r
    case Hawaiian => "Ham and Pineapple"
    case Spicy => "Pepperoni and Jalapenos"
    case Milkowsky => "Cheese"
  }

  /** The pizza a recipe describes once all three of its steps have run. */
  function RecipePizza(r: Recipe): PizzaValue
  {
    PizzaValue(DoughOf(r), SauceOf(r), ToppingOf(r))
  }

  /** One build step; the builder, not the caller, supplies the value. */
  datatype PizzaStep = DoughStep | SauceStep | ToppingStep

  /** The effect of one build step of recipe `r`: it overwrites its own field only. */
  function Apply(p: PizzaValue, r: Recipe, s: PizzaStep): (q: PizzaValue)
    ensures q.dough == (if s == DoughStep then DoughOf(r) else p.dough)
    ensures q.sauce == (if s == SauceStep then SauceOf(r) else p.sauce)
    ensures q.topping == (if s == ToppingStep then ToppingOf(r) else p.topping)
  {
    match s
    case DoughStep => p.(dough := DoughOf(r))
    case SauceStep => p.(sauce := SauceOf(r))
    case ToppingStep => p.(topping := ToppingOf(r))
  }

  /** The effect of a sequence of build steps, performed first to last. */
  function Run(p: PizzaValue, r: Recipe, steps: seq<PizzaStep>): PizzaValue
    decreases |steps|
  {
    if steps == [] then p else Run(Apply(p, r, steps[0]), r, steps[1..])
  }

  /** The calls Cook::makePizza makes, in order. */
  const CookSteps: seq<PizzaStep> := [DoughStep, SauceStep, ToppingStep]

  // ---------------------------------------------------------------------------
  // What any sequence of build steps does
  // ---------------------------------------------------------------------------

  /** Each field holds the recipe's value if some step wrote it and its old value
      otherwise; neither the order nor the number of the steps matters. */
  lemma {:induction false} RunFields(p: PizzaValue, r: Recipe, steps: seq<PizzaStep>)
    ensures Run(p, r, steps)
         == PizzaValue(if DoughStep in steps then DoughOf(r) else p.dough,
                       if SauceStep in steps then SauceOf(r) else p.sauce,
                       if ToppingStep in steps then ToppingOf(r) else p.topping)
    decreases |steps|
  {
    if steps != [] {
      RunFields(Apply(p, r, steps[0]), r, steps[1..]);
      assert steps == [steps[0]] + steps[1..];
      forall s: PizzaStep ensures s in steps <==> s == steps[0] || s in steps[1..] {
        assert s in steps <==> s in [steps[0]] + steps[1..];
      }
    }
  }

  /** Build steps are idempotent: repeating steps that already ran changes nothing. */
  lemma RunRepeatIdempotent(p: PizzaValue, r: Recipe, steps: seq<PizzaStep>, again: seq<PizzaStep>)
    requires forall s :: s in again ==> s in steps
    ensures Run(p, r, steps + again) == Run(p, r, steps)
  {
    RunFields(p, r, steps + again);
    RunFields(p, r, steps);
  }

  /** Once every step has run, the pizza is the recipe's, whatever it held before. */
  lemma RunCompleteIsRecipe(p: PizzaValue, r: Recipe, steps: seq<PizzaStep>)
    requires DoughStep in steps && SauceStep in steps && ToppingStep in steps
    ensures Run(p, r, steps) == RecipePizza(r)
  {
    RunFields(p, r, steps);
  }

  /** makePizza runs all three steps, so it yields exactly the recipe's pizza. */
  lemma CookMakesRecipe(p: PizzaValue, r: Recipe)
    ensures Run(p, r, CookSteps) == RecipePizza(r)
  {
    assert CookSteps[0] == DoughStep && CookSteps[1] == SauceStep && CookSteps[2] == ToppingStep;
    RunCompleteIsRecipe(p, r, CookSteps);
  }

  /** The three pizzas the builders make, field by field, and how they differ. */
  lemma RecipePizzas()
    ensures RecipePizza(Hawaiian) == PizzaValue("Pan Dough", "Hawaiian Sauce", "Ham and Pineapple")
    ensures RecipePizza(Spicy) == PizzaValue("Thin Dough", "Spicy Tomato Sauce", "Pepperoni and Jalapenos")
    ensures RecipePizza(Milkowsky) == PizzaValue("Thin Dough", "Tomato Sauce", "Cheese")
    ensures forall r, q :: r != q ==> RecipePizza(r) != RecipePizza(q)
  {
  }

  // ---------------------------------------------------------------------------
  // The display line
  // ---------------------------------------------------------------------------

  /** The line Pizza::displayPizza writes. */
  function PizzaText(p: PizzaValue): string
  {
    "Pizza with Dough: " + p.dough + ", Sauce: " + p.sauce + ", Topping: " + p.topping + "\n"
  }

  /** The display line, grouped as caption-and-value pieces followed by the line break. */
  lemma PizzaTextPieces(p: PizzaValue)
    ensures PizzaText(p)
         == ("Pizza with Dough: " + p.dough) + (", Sauce: " + p.sauce) + (", Topping: " + p.topping) + "\n"
  {
  }

  /** When no field holds a line break, the display is exactly one line. */
  lemma PizzaTextOneLine(p: PizzaValue)
    requires NoNewline(p.dough) && NoNewline(p.sauce) && NoNewline(p.topping)
    ensures multiset(PizzaText(p))['\n'] == 1
    ensures PizzaText(p)[|PizzaText(p)| - 1] == '\n'
  {
    PizzaCaptionsHaveNoNewline();
    var body := "Pizza with Dough: " + p.dough;
    NoNewlineConcat("Pizza with Dough: ", p.dough);
    NoNewlineConcat(body, ", Sauce: ");
    body := body + ", Sauce: ";
    NoNewlineConcat(body, p.sauce);
    body := body + p.sauce;
    NoNewlineConcat(body, ", Topping: ");
    body := body + ", Topping: ";
    NoNewlineConcat(body, p.topping);
    body := body + p.topping;
    OneLine(body);
  }

  lemma PizzaCaptionsHaveNoNewline()
    ensures NoNewline("Pizza with Dough: ") && NoNewline(", Sauce: ") && NoNewline(", Topping: ")
  {
  }

  lemma OneLine(a: string)
    requires NoNewline(a)
    ensures multiset(a + "\n")['\n'] == 1
  {
    assert multiset(a)['\n'] == 0;
  }

  // ---------------------------------------------------------------------------
  // The product, updated in place
  // ---------------------------------------------------------------------------

  class Pizza {
    var dough: string
    var sauce: string
    var topping: string

    /** The default constructor: every field empty. */
    constructor ()
      ensures Value() == EmptyPizza
    {
      dough, sauce, topping := "", "", "";
    }

    /** The copy constructor: a new object holding the same field values. */
    constructor Copy(p: PizzaValue)
      ensures Value() == p
    {
      dough, sauce, topping := p.dough, p.sauce, p.topping;
    }

    function Value(): PizzaValue
      reads this
    {
      PizzaValue(dough, sauce, topping)
    }

    method SetDough(d: string)
      modifies this
      ensures Value() == old(Value()).(dough := d)
    {
      dough := d;
    }

    method SetSauce(s: string)
      modifies this
      ensures Value() == old(Value()).(sauce := s)
    {
      sauce := s;
    }

    method SetTopping(t: string)
      modifies this
      ensures Value() == old(Value()).(topping := t)
    {
      topping := t;
    }

    /** The line displayPizza writes; the pizza is only read. */
    method DisplayPizza() returns (line: string)
      ensures line == PizzaText(Value())
    {
      line := PizzaText(Value());
    }
  }

  // ---------------------------------------------------------------------------
  // The builder and the director
  // ---------------------------------------------------------------------------

  /** A concrete pizza builder: its recipe fixes the value of every step. */
  class PizzaBuilder {
    const recipe: Recipe
    const pizza: Pizza

    /** A fresh builder owns a fresh, empty pizza. */
    constructor (recipe: Recipe)
      ensures this.recipe == recipe && fresh(pizza) && pizza.Value() == EmptyPizza
    {
      this.recipe := recipe;
      pizza := new Pizza();
    }

    method BuildDough()
      modifies pizza
      ensures pizza.Value() == Apply(old(pizza.Value()), recipe, DoughStep)
    {
      pizza.SetDough(DoughOf(recipe));
    }

    method BuildSauce()
      modifies pizza
      ensures pizza.Value() == Apply(old(pizza.Value()), recipe, SauceStep)
    {
      pizza.SetSauce(SauceOf(recipe));
    }

    method BuildTopping()
      modifies pizza
      ensures pizza.Value() == Apply(old(pizza.Value()), recipe, ToppingStep)
    {
      pizza.SetTopping(ToppingOf(recipe));
    }

    /** A copy of the pizza: a new object, so later steps leave it as it is. */
    method GetPizza() returns (p: Pizza)
      ensures fresh(p) && p.Value() == pizza.Value()
    {
      p := new Pizza.Copy(pizza.Value());
    }
  }

  /** The director: dough, sauce, topping, on whichever builder it is given. */
  class Cook {

    /** Directors hold no state. */
    constructor ()
    {
    }

    method MakePizza(builder: PizzaBuilder)
      modifies builder.pizza
      ensures builder.pizza.Value() == Run(old(builder.pizza.Value()), builder.recipe, CookSteps)
      ensures builder.pizza.Value() == RecipePizza(builder.recipe)
    {
      ghost var p0 := builder.pizza.Value();
      builder.BuildDough();
      builder.BuildSauce();
      builder.BuildTopping();
      RunSteps3(p0, builder.recipe, CookSteps);
      CookMakesRecipe(p0, builder.recipe);
    }
  }

  /** Run over a sequence of three steps is the three steps applied in turn. */
  lemma RunSteps3(p: PizzaValue, r: Recipe, steps: seq<PizzaStep>)
    requires |steps| == 3
    ensures Run(p, r, steps) == Apply(Apply(Apply(p, r, steps[0]), r, steps[1]), r, steps[2])
  {
    var p1 := Apply(p, r, steps[0]);
    var p2 := Apply(p1, r, steps[1]);
    assert Run(p, r, steps) == Run(p1, r, steps[1..]);
    assert steps[1..][0] == steps[1] && steps[1..][1..] == steps[2..];
    assert Run(p1, r, steps[1..]) == Run(p2, r, steps[2..]);
    assert steps[2..][0] == steps[2] && steps[2..][1..] == [];
    assert Run(p2, r, steps[2..]) == Run(Apply(p2, r, steps[2]), r, []);
  }
}
