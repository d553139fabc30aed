# ComputerPizzaBuilder, modelled in Dafny

The program shows the Builder design pattern twice, in `main.cpp`.

- **Computers.** A `Computer` product has a type, a CPU, a list of memory modules and a storage. The CPU, storage and type setters overwrite their field. `setMemory` appends to the list.
  - `DesktopComputerBuilder` and `LaptopComputerBuilder` each own a `Computer`. Each constructor pre-sets the type. Each build step forwards the caller's value to the matching setter.
  - The `ComputerAssembler` director runs one of two fixed step sequences. It then returns a copy of the product.
- **Pizzas.** A `Pizza` has a dough, a sauce and a topping, each overwritten by its setter.
  - The Hawaiian, Spicy and Milkowsky builders hard-code one literal per step.
  - The `Cook` director runs dough, sauce and topping in that order.
- **Display.** Both products render a fixed text. `main` runs both directors and prints every product.

## How the model is built

- `computer.dfy`, module `Computers`:
  - `ComputerValue` is a computer's state as a value.
  - A director's calls are data: `Step` is one call, `ComputerSteps` and `LaptopSteps` are the two director sequences, and `Run` performs a sequence.
  - Lemmas about `Run` hold for every step sequence: last write wins, memory is appended in call order, and the type is never touched.
  - `Computer`, `ComputerBuilder` and `ComputerAssembler` are classes. Their methods update state in place. A product setter's `ensures` gives the new state as the old value with one field updated. A builder step's `ensures` gives it as `Apply` of the old state, and a director's as `Run` of the old state.
  - `ComputerText` is the text `display` writes. `Computer.Display` builds that text with the source's loop over the memory list and is proved equal to `ComputerText`.
- `pizza.dfy`, module `Pizzas`: the same shape, with `Recipe` naming the concrete builder.
- `lines.dfy`, module `Lines`: the line-break facts both display texts use.
- `demo.dfy`, module `Program`:
  - `RunDemo` is `main`'s sequence. It returns the text `main` prints instead of printing it.
  - Two client methods show that a product taken from a builder is a copy.

The concrete builders of one family have identical step code and differ only in constants. Each family is therefore one class with a tag:
- `ComputerBuilder` has a `ComputerVariant` (`Desktop` or `Laptop`).
- `PizzaBuilder` has a `Recipe` (`Hawaiian`, `Spicy` or `Milkowsky`).

A director method accepts any builder of its family without inspecting the tag. That is the decoupling the abstract base classes give in C++.

Facts about the code that the model keeps:
- Each computer build step forwards the caller's value unchanged to the matching setter (`main.cpp:54-62`, `main.cpp:71-79`). The director supplies the values.
- `setType` is a public setter, so the type can change after construction (`main.cpp:17-19`).
- The memory line is `"Memory: "` followed by `" " + m` for each module. So the first module comes after two spaces (`Memory:  16GB`), and the storage label starts on a new line (`main.cpp:23-27`).

## Model

| member | source | states |
|---|---|---|
| `Computers.Computer.constructor` | main.cpp:29-33 | a default-constructed Computer has empty type, CPU and storage and no memory modules |
| `Computers.Computer.Copy` | main.cpp:41-43 | the copy holds exactly the field values of the original |
| `Computers.Computer.SetCPU` | main.cpp:8-10 | only the CPU changes, to the given value; type, memory and storage are unchanged |
| `Computers.Computer.SetMemory` | main.cpp:11-13 | the memory list becomes the old list followed by the new module; every other field is unchanged |
| `Computers.Computer.SetStorage` | main.cpp:14-16 | only the storage changes, to the given value |
| `Computers.Computer.SetType` | main.cpp:17-19 | only the type changes, to the given value |
| `Computers.Computer.Display` | main.cpp:20-28 | the loop over the memory list produces exactly `ComputerText` of the current state, and the computer is only read |
| `Computers.ComputerBuilder.constructor` | main.cpp:50-70 | a new builder owns a fresh, empty computer whose type is "Desktop" or "Laptop" according to the variant |
| `Computers.ComputerBuilder.BuildCPU` | main.cpp:54-56 | the owned computer's state becomes the old state with the CPU step applied, with the caller's value unchanged |
| `Computers.ComputerBuilder.BuildMemory` | main.cpp:57-59 | the owned computer's state becomes the old state with the caller's module appended |
| `Computers.ComputerBuilder.BuildStorage` | main.cpp:60-62 | the owned computer's state becomes the old state with the storage step applied |
| `Computers.ComputerBuilder.GetResult` | main.cpp:41-43 | the result is a newly allocated computer equal to the builder's product, so later build steps cannot reach it |
| `Computers.ComputerAssembler.AssembleComputer` | main.cpp:84-89 | the builder's product becomes `Run(old state, ComputerSteps)` (CPU, memory, storage in that order), and a fresh copy of it is returned |
| `Computers.ComputerAssembler.AssembleLaptop` | main.cpp:91-98 | the builder's product becomes `Run(old state, LaptopSteps)` (CPU, three memory calls, storage), and a fresh copy of it is returned |
| `Computers.Apply` | main.cpp:54-62 | one build step forwards its value to the product: CPU and storage are overwritten, a memory module is appended; the type is kept and the memory list only grows, by at most one module |
| `Computers.Run` | main.cpp:84-98 | a director's calls performed first to last; the memory list is never shortened and grows by at most one module per call |
| `Computers.TypeName` | main.cpp:50-70 | the type a builder's constructor sets is "Desktop" exactly for the desktop builder and "Laptop" exactly for the laptop builder |
| `Computers.MemoryText` | main.cpp:23-26 | the memory part of the display is empty exactly when there are no modules, and otherwise starts with a space |
| `Computers.ComputerText` | main.cpp:20-28 | the text display writes; its line structure is stated by `ComputerTextAsLines` and `ComputerTextLines` |
| `Computers.RunMemory` | main.cpp:11-13 | for every step sequence, memory is the old list followed by the values of the memory steps, in call order, duplicates kept |
| `Computers.RunKind` | main.cpp:38-40 | no build step changes the type set by the builder's constructor |
| `Computers.RunLastWriteWins` | main.cpp:8-16 | the CPU and the storage each hold the value of the last step that wrote them |
| `Computers.RunUntouched` | main.cpp:8-16 | a field that no step writes keeps its previous value |
| `Computers.RunAppend` | main.cpp:84-98 | running two step sequences one after the other equals running their concatenation |
| `Computers.RunIgnoresKind` | main.cpp:84-98 | two products that differ only in type before a director sequence differ only in type after it, so the director does not depend on the variant |
| `Computers.AssembleComputerOutcome` | main.cpp:84-89 | for any starting state, assembleComputer keeps the type, sets CPU "Intel i7", appends "16GB" and sets storage "512GB SSD" |
| `Computers.AssembleLaptopOutcome` | main.cpp:91-98 | for any starting state, assembleLaptop keeps the type, sets CPU "Ryzen 9", appends "21GB", "16GB", "1212GB" in order and sets storage "Dysk Tysionc!" |
| `Computers.FreshBuilderProducts` | main.cpp:50-98 | on a fresh builder of either variant, each director yields exactly the variant's type with the director's CPU, memory list and storage |
| `Computers.MemoryTextSnoc` | main.cpp:24-26 | appending a module to the list extends the memory text by a space and that module |
| `Computers.MemoryTextRoundTrip` | main.cpp:23-26 | when no module name holds a space, the memory list can be read back from the memory text, so the text lists every module in order |
| `Computers.SpacedModuleReadsAsTwo` | main.cpp:23-26 | a module "a b" renders exactly as the two modules "a" and "b", so the no-space condition above is needed |
| `Computers.ComputerTextLines` | main.cpp:20-28 | when no field holds a line break, the display is exactly four lines: four line breaks, the last at the very end |
| `Computers.ComputerTextAsLines` | main.cpp:20-28 | the display is the Type, CPU, Memory and Storage lines in that order, each ended by a line break |
| `Pizzas.Pizza.constructor` | main.cpp:122-125 | a default-constructed Pizza has empty dough, sauce and topping |
| `Pizzas.Pizza.Copy` | main.cpp:133 | the copy holds exactly the field values of the original |
| `Pizzas.Pizza.SetDough` | main.cpp:104-107 | only the dough changes, to the given value |
| `Pizzas.Pizza.SetSauce` | main.cpp:108-111 | only the sauce changes, to the given value |
| `Pizzas.Pizza.SetTopping` | main.cpp:112-115 | only the topping changes, to the given value |
| `Pizzas.Pizza.DisplayPizza` | main.cpp:116-121 | the line is `PizzaText` of the current state, and the pizza is only read |
| `Pizzas.PizzaBuilder.constructor` | main.cpp:128-136 | a new builder of any recipe owns a fresh, empty pizza |
| `Pizzas.PizzaBuilder.BuildDough` | main.cpp:140-143 | the owned pizza's dough becomes the recipe's dough; nothing else changes |
| `Pizzas.PizzaBuilder.BuildSauce` | main.cpp:144-147 | the owned pizza's sauce becomes the recipe's sauce; nothing else changes |
| `Pizzas.PizzaBuilder.BuildTopping` | main.cpp:148-151 | the owned pizza's topping becomes the recipe's topping; nothing else changes |
| `Pizzas.PizzaBuilder.GetPizza` | main.cpp:133 | the result is a newly allocated pizza equal to the builder's pizza |
| `Pizzas.Cook.MakePizza` | main.cpp:190-195 | the builder's pizza becomes `Run(old state, recipe, [dough, sauce, topping])`, which is exactly the recipe's pizza whatever the pizza held before |
| `Pizzas.DoughOf` | main.cpp:140-175 | only the Hawaiian builder uses "Pan Dough"; the Spicy and Milkowsky builders use "Thin Dough" |
| `Pizzas.SauceOf` | main.cpp:144-179 | the sauce each builder hard-codes: "Hawaiian Sauce", "Spicy Tomato Sauce", "Tomato Sauce" |
| `Pizzas.ToppingOf` | main.cpp:148-183 | the topping each builder hard-codes: "Ham and Pineapple", "Pepperoni and Jalapenos", "Cheese" |
| `Pizzas.RecipePizza` | main.cpp:138-185 | the pizza a builder holds once its three steps have run; its values are stated by `RecipePizzas` |
| `Pizzas.Apply` | main.cpp:138-185 | one build step sets its own field to the recipe's value and leaves the other two fields as they were |
| `Pizzas.Run` | main.cpp:190-195 | build steps performed first to last; what they yield is stated by `RunFields` |
| `Pizzas.PizzaText` | main.cpp:116-121 | the line displayPizza writes; its shape is stated by `PizzaTextOneLine` |
| `Pizzas.RunFields` | main.cpp:138-185 | for any step sequence, each field holds the recipe's value if some step wrote it and its old value otherwise |
| `Pizzas.RunRepeatIdempotent` | main.cpp:138-185 | repeating steps that already ran leaves the pizza unchanged: every pizza build step is idempotent |
| `Pizzas.RunCompleteIsRecipe` | main.cpp:138-185 | once each of the three steps has run, in any order, the pizza is the recipe's |
| `Pizzas.CookMakesRecipe` | main.cpp:190-195 | makePizza's sequence yields the recipe's pizza from any starting state |
| `Pizzas.RecipePizzas` | main.cpp:138-185 | Hawaiian is (Pan Dough, Hawaiian Sauce, Ham and Pineapple), Spicy is (Thin Dough, Spicy Tomato Sauce, Pepperoni and Jalapenos), Milkowsky is (Thin Dough, Tomato Sauce, Cheese), and the three differ pairwise |
| `Pizzas.PizzaTextOneLine` | main.cpp:116-121 | when no field holds a line break, the pizza display is one line: one line break, at the very end |
| `Program.RunDemo` | main.cpp:199-226 | main's sequence writes the desktop, an empty line, the laptop, an empty line, then the Hawaiian, Spicy and Milkowsky lines, with the exact text of each |
| `Program.ComputerDemo` | main.cpp:200-208 | the computer half of main writes exactly the desktop and laptop texts, each followed by an empty line |
| `Program.PizzaDemo` | main.cpp:211-225 | the pizza half of main writes exactly the three pizza lines in order |
| `Program.DesktopText` | main.cpp:20-28 | the desktop main assembles displays as "Type: Desktop", "CPU: Intel i7", "Memory:  16GB", "Storage: 512GB SSD" |
| `Program.LaptopText` | main.cpp:20-28 | the laptop main assembles displays as "Type: Laptop", "CPU: Ryzen 9", "Memory:  21GB 16GB 1212GB", "Storage: Dysk Tysionc!" |
| `Program.HawaiianText` | main.cpp:116-121 | the Hawaiian pizza displays as "Pizza with Dough: Pan Dough, Sauce: Hawaiian Sauce, Topping: Ham and Pineapple" |
| `Program.SpicyText` | main.cpp:116-121 | the Spicy pizza displays as "Pizza with Dough: Thin Dough, Sauce: Spicy Tomato Sauce, Topping: Pepperoni and Jalapenos" |
| `Program.MilkowskyText` | main.cpp:116-121 | the Milkowsky pizza displays as "Pizza with Dough: Thin Dough, Sauce: Tomato Sauce, Topping: Cheese" |
| `Program.ResultOutlivesLaterSteps` | main.cpp:41-43 | a computer taken with getResult keeps its value while later build steps change the builder's product |
| `Program.PizzaOutlivesLaterSteps` | main.cpp:133 | a pizza taken with getPizza before makePizza keeps its value while the builder's pizza becomes the recipe's |

## Left out

- Writing to `std::cout`: `display`, `displayPizza` and `main` return the text they would write, and the act of printing is not modelled.
- Virtual dispatch and the class hierarchy: the five concrete builder classes are two classes with a variant tag, because the builders of one family share all their step code.
- The C++ object layout: a builder embeds its product by value, while here it holds a reference to a product object that only it allocates. The model does not stop a client from reading or changing the product through that reference, for example by calling `SetType` on a builder's computer or `SetDough` on a builder's pizza.
- `std::string` and `std::vector` internals: strings are `seq<char>` and the memory list is `seq<string>`. Allocation failure is not modelled.
