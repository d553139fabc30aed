/** The program's entry point as a method that returns what it writes to standard output,
    and two clients showing that a product taken from a builder is a copy. */
module Program {
  import C = Computers
  import P = Pizzas

  /** What display writes for the desktop main assembles. */
  const DesktopOutput: string :=
    "Type: Desktop\n" + "CPU: Intel i7\n" + "Memory:  16GB\n" + "Storage: 512GB SSD\n"

  /** What display writes for the laptop main assembles. */
  const LaptopOutput: string :=
    "Type: Laptop\n" + "CPU: Ryzen 9\n" + "Memory:  21GB 16GB 1212GB\n" + "Storage: Dysk Tysionc!\n"

  const HawaiianOutput: string :=
    "Pizza with Dough: Pan Dough" + ", Sauce: Hawaiian Sauce" + ", Topping: Ham and Pineapple" + "\n"
  const SpicyOutput: string :=
    "Pizza with Dough: Thin Dough" + ", Sauce: Spicy Tomato Sauce" + ", Topping: Pepperoni and Jalapenos" + "\n"
  const MilkowskyOutput: string :=
    "Pizza with Dough: Thin Dough" + ", Sauce: Tomato Sauce" + ", Topping: Cheese" + "\n"

  /** The demo sequence of main, with the text it prints returned instead: two computers,
      each followed by an empty line, then the three pizzas. */
  method RunDemo() returns (stdout: string)
    ensures stdout == DesktopOutput + "\n" + LaptopOutput + "\n" + HawaiianOutput + SpicyOutput + MilkowskyOutput
  {
    var computers := ComputerDemo();
    var pizzas := PizzaDemo();
    stdout := computers + pizzas;
    Regroup(DesktopOutput, LaptopOutput, HawaiianOutput, SpicyOutput, MilkowskyOutput);
  }

  /** Moves the parentheses of the concatenation of main's two halves, for abstract strings
      so the literals are not unfolded. */
  lemma Regroup(a: string, b: string, c: string, d: string, e: string)
    ensures (a + "\n" + b + "\n") + (c + d + e) == a + "\n" + b + "\n" + c + d + e
  {
  }

  /** The computer half of main: assemble a desktop and a laptop, then display both. */
  method ComputerDemo() returns (stdout: string)
    ensures stdout == DesktopOutput + "\n" + LaptopOutput + "\n"
  {
    var assembler := new C.ComputerAssembler();
    var desktopBuilder := new C.ComputerBuilder(C.Desktop);
    var desktop := assembler.AssembleComputer(desktopBuilder);
    var laptopBuilder := new C.ComputerBuilder(C.Laptop);
    var desktop2 := assembler.AssembleLaptop(laptopBuilder);
    C.FreshBuilderProducts(C.Desktop);
    C.FreshBuilderProducts(C.Laptop);
    var text1 := desktop.Display();
    var text2 := desktop2.Display();
    DesktopText();
    LaptopText();
    stdout := text1 + "\n" + text2 + "\n";
  }

  /** The pizza half of main: cook each recipe, take the pizza, display it. */
  method PizzaDemo() returns (stdout: string)
    ensures stdout == HawaiianOutput + SpicyOutput + MilkowskyOutput
  {
    var cook := new P.Cook();
    var hawaiianBuilder := new P.PizzaBuilder(P.Hawaiian);
    cook.MakePizza(hawaiianBuilder);
    var hawaiianPizza := hawaiianBuilder.GetPizza();
    var line1 := hawaiianPizza.DisplayPizza();

    var spicyBuilder := new P.PizzaBuilder(P.Spicy);
    cook.MakePizza(spicyBuilder);
    var spicyPizza := spicyBuilder.GetPizza();
    var line2 := spicyPizza.DisplayPizza();

    var milkowskyBuilder := new P.PizzaBuilder(P.Milkowsky);
    cook.MakePizza(milkowskyBuilder);
    var milkowskyPizza := milkowskyBuilder.GetPizza();
    var line3 := milkowskyPizza.DisplayPizza();

    HawaiianText();
    SpicyText();
    MilkowskyText();
    stdout := line1 + line2 + line3;
  }

  lemma DesktopText()
    ensures C.ComputerText(C.ComputerValue("Desktop", "Intel i7", ["16GB"], "512GB SSD")) == DesktopOutput
  {
    var v := C.ComputerValue("Desktop", "Intel i7", ["16GB"], "512GB SSD");
    C.ComputerTextAsLines(v);
    assert C.MemoryText(["16GB"]) == " 16GB";
    assert ("Type: " + "Desktop") + "\n" == "Type: Desktop\n";
    assert ("CPU: " + "Intel i7") + "\n" == "CPU: Intel i7\n";
    assert ("Memory: " + " 16GB") + "\n" == "Memory:  16GB\n";
    assert ("Storage: " + "512GB SSD") + "\n" == "Storage: 512GB SSD\n";
  }

  lemma LaptopText()
    ensures C.ComputerText(C.ComputerValue("Laptop", "Ryzen 9", ["21GB", "16GB", "1212GB"], "Dysk Tysionc!"))
         == LaptopOutput
  {
    var v := C.ComputerValue("Laptop", "Ryzen 9", ["21GB", "16GB", "1212GB"], "Dysk Tysionc!");
    C.ComputerTextAsLines(v);
    LaptopMemoryLine();
    var l1, l2, l4 := "Type: " + "Laptop" + "\n", "CPU: " + "Ryzen 9" + "\n", "Storage: " + "Dysk Tysionc!" + "\n";
    assert l1 == "Type: Laptop\n";
    assert l2 == "CPU: Ryzen 9\n";
    assert l4 == "Storage: Dysk Tysionc!\n";
  }

  lemma LaptopMemoryLine()
    ensures "Memory: " + C.MemoryText(["21GB", "16GB", "1212GB"]) + "\n" == "Memory:  21GB 16GB 1212GB\n"
  {
    LaptopMemoryText();
    assert "Memory: " + " 21GB 16GB 1212GB" == "Memory:  21GB 16GB 1212GB";
  }

  lemma LaptopMemoryText()
    ensures C.MemoryText(["21GB", "16GB", "1212GB"]) == " 21GB 16GB 1212GB"
  {
    var ms := ["21GB", "16GB", "1212GB"];
    assert ms[1..] == ["16GB", "1212GB"] && ms[1..][1..] == ["1212GB"];
    assert C.MemoryText(["1212GB"]) == " 1212GB";
    assert " " + "16GB" + " 1212GB" == " 16GB 1212GB";
    assert C.MemoryText(["16GB", "1212GB"]) == " 16GB 1212GB";
    assert " " + "21GB" + " 16GB 1212GB" == " 21GB 16GB 1212GB";
  }

  lemma HawaiianText()
    ensures P.PizzaText(P.RecipePizza(P.Hawaiian)) == HawaiianOutput
  {
    P.PizzaTextPieces(P.RecipePizza(P.Hawaiian));
    HawaiianPieces();
  }

  /** Each caption of the Hawaiian line joined with its value. */
  lemma HawaiianPieces()
    ensures "Pizza with Dough: " + P.DoughOf(P.Hawaiian) == "Pizza with Dough: Pan Dough"
    ensures ", Sauce: " + P.SauceOf(P.Hawaiian) == ", Sauce: Hawaiian Sauce"
    ensures ", Topping: " + P.ToppingOf(P.Hawaiian) == ", Topping: Ham and Pineapple"
  {
    assert "Pizza with Dough: " + "Pan Dough" == "Pizza with Dough: Pan Dough";
    assert ", Sauce: " + "Hawaiian Sauce" == ", Sauce: Hawaiian Sauce";
    assert ", Topping: " + "Ham and Pineapple" == ", Topping: Ham and Pineapple";
  }

  lemma SpicyText()
    ensures P.PizzaText(P.RecipePizza(P.Spicy)) == SpicyOutput
  {
    P.PizzaTextPieces(P.RecipePizza(P.Spicy));
    SpicyPieces();
  }

  /** Each caption of the Spicy line joined with its value. */
  lemma SpicyPieces()
    ensures "Pizza with Dough: " + P.DoughOf(P.Spicy) == "Pizza with Dough: Thin Dough"
    ensures ", Sauce: " + P.SauceOf(P.Spicy) == ", Sauce: Spicy Tomato Sauce"
    ensures ", Topping: " + P.ToppingOf(P.Spicy) == ", Topping: Pepperoni and Jalapenos"
  {
    assert "Pizza with Dough: " + "Thin Dough" == "Pizza with Dough: Thin Dough";
    assert ", Sauce: " + "Spicy Tomato Sauce" == ", Sauce: Spicy Tomato Sauce";
    assert ", Topping: " + "Pepperoni and Jalapenos" == ", Topping: Pepperoni and Jalapenos";
  }

  lemma MilkowskyText()
    ensures P.PizzaText(P.RecipePizza(P.Milkowsky)) == MilkowskyOutput
  {
    P.PizzaTextPieces(P.RecipePizza(P.Milkowsky));
    MilkowskyPieces();
  }

  /** Each caption of the Milkowsky line joined with its value. */
  lemma MilkowskyPieces()
    ensures "Pizza with Dough: " + P.DoughOf(P.Milkowsky) == "Pizza with Dough: Thin Dough"
    ensures ", Sauce: " + P.SauceOf(P.Milkowsky) == ", Sauce: Tomato Sauce"
    ensures ", Topping: " + P.ToppingOf(P.Milkowsky) == ", Topping: Cheese"
  {
    assert "Pizza with Dough: " + "Thin Dough" == "Pizza with Dough: Thin Dough";
    assert ", Sauce: " + "Tomato Sauce" == ", Sauce: Tomato Sauce";
    assert ", Topping: " + "Cheese" == ", Topping: Cheese";
  }

  /** getResult hands out a copy: build steps run after it leave the copy untouched. */
  method ResultOutlivesLaterSteps(builder: C.ComputerBuilder, cpu: string, m: string, storage: string)
    returns (result: C.Computer)
    modifies builder.computer
    ensures result.Value() == old(builder.computer.Value())
    ensures builder.computer.Value()
         == C.Run(old(builder.computer.Value()), [C.CpuStep(cpu), C.MemoryStep(m), C.StorageStep(storage)])
  {
    result := builder.GetResult();
    ghost var v0 := builder.computer.Value();
    builder.BuildCPU(cpu);
    builder.BuildMemory(m);
    builder.BuildStorage(storage);
    C.RunSteps3(v0, [C.CpuStep(cpu), C.MemoryStep(m), C.StorageStep(storage)]);
  }

  /** getPizza hands out a copy: a pizza taken before makePizza stays as it was. */
  method PizzaOutlivesLaterSteps(builder: P.PizzaBuilder) returns (early: P.Pizza)
    modifies builder.pizza
    ensures early.Value() == old(builder.pizza.Value())
    ensures builder.pizza.Value() == P.RecipePizza(builder.recipe)
  {
    early := builder.GetPizza();
    var cook := new P.Cook();
    cook.MakePizza(builder);
  }
}
