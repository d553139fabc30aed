/** The computer half of the program: the Computer product, the builder that owns one,
    the ComputerAssembler director, and the text that Computer::display writes. */
module Computers {
  import opened Lines

  // ---------------------------------------------------------------------------
  // Product state, by value
  // ---------------------------------------------------------------------------

  /** What a Computer holds: `kind` is the source's `type_`. */
  datatype ComputerValue = ComputerValue(kind: string, cpu: string, memory: seq<string>, storage: string)

  /** A default-constructed Computer: empty strings and no memory modules. */
  const EmptyComputer: ComputerValue := ComputerValue("", "", [], "")

  /** One build step a director asks of a computer builder, with the value it passes. */
  datatype Step = CpuStep(value: string) | MemoryStep(value: string) | StorageStep(value: string)

  /** The effect of one build step: the builder forwards the value unchanged to the
      product's setter, so CPU and storage are overwritten and memory is appended to. */
  function Apply(v: ComputerValue, s: Step): (r: ComputerValue)
    ensures r.kind == v.kind
    ensures v.memory <= r.memory && |r.memory| <= |v.memory| + 1
  {
    match s
    case CpuStep(c) => v.(cpu := c)
    case MemoryStep(m) => v.(memory := v.memory + [m])
    case StorageStep(st) => v.(storage := st)
  }

  /** The effect of a sequence of build steps, performed first to last. */
  function Run(v: ComputerValue, steps: seq<Step>): (r: ComputerValue)
    ensures v.memory <= r.memory && |r.memory| <= |v.memory| + |steps|
    decreases |steps|
  {
    if steps == [] then v else Run(Apply(v, steps[0]), steps[1..])
  }

  /** The calls ComputerAssembler::assembleComputer makes, in order. */
  const ComputerSteps: seq<Step> := [CpuStep("Intel i7"), MemoryStep("16GB"), StorageStep("512GB SSD")]

  /** The calls ComputerAssembler::assembleLaptop makes, in order. */
  const LaptopSteps: seq<Step> :=
    [CpuStep("Ryzen 9"), MemoryStep("21GB"), MemoryStep("16GB"), MemoryStep("1212GB"), StorageStep("Dysk Tysionc!")]

  /** The values of the memory steps of `steps`, in the order they are made. */
  function AddedMemory(steps: seq<Step>): seq<string>
    decreases |steps|
  {
    if steps == [] then []
    else (if steps[0].MemoryStep? then [steps[0].value] else []) + AddedMemory(steps[1..])
  }

  /** The two scalar fields a build step can overwrite. */
  datatype Field = CpuField | StorageField

  function Read(v: ComputerValue, f: Field): string
  {
    match f
    case CpuField => v.cpu
    case StorageField => v.storage
  }

  predicate Writes(s: Step, f: Field)
  {
    match f
    case CpuField => s.CpuStep?
    case StorageField => s.StorageStep?
  }

  // ---------------------------------------------------------------------------
  // What any sequence of build steps does
  // ---------------------------------------------------------------------------

  /** Running two step sequences one after the other is running their concatenation. */
  lemma {:induction false} RunAppend(v: ComputerValue, a: seq<Step>, b: seq<Step>)
    ensures Run(v, a + b) == Run(Run(v, a), b)
    decreases |a|
  {
    if a != [] {
      assert (a + b)[0] == a[0];
      assert (a + b)[1..] == a[1..] + b;
      RunAppend(Apply(v, a[0]), a[1..], b);
    } else {
      assert a + b == b;
    }
  }

  /** Memory is append-only: after any steps it is the old list followed by every value
      passed to a memory step, in call order, duplicates kept. */
  lemma {:induction false} RunMemory(v: ComputerValue, steps: seq<Step>)
    ensures Run(v, steps).memory == v.memory + AddedMemory(steps)
    decreases |steps|
  {
    if steps != [] {
      RunMemory(Apply(v, steps[0]), steps[1..]);
    }
  }

  /** No build step touches the type: it stays what the builder's constructor set. */
  lemma {:induction false} RunKind(v: ComputerValue, steps: seq<Step>)
    ensures Run(v, steps).kind == v.kind
    decreases |steps|
  {
    if steps != [] {
      RunKind(Apply(v, steps[0]), steps[1..]);
    }
  }

  /** Last write wins: the field holds the value of the last step that writes it. */
  lemma {:induction false} RunLastWriteWins(v: ComputerValue, steps: seq<Step>, f: Field, i: nat)
    requires i < |steps| && Writes(steps[i], f)
    requires forall j :: i < j < |steps| ==> !Writes(steps[j], f)
    ensures Read(Run(v, steps), f) == steps[i].value
    decreases |steps|
  {
    if i == 0 {
      RunUntouched(Apply(v, steps[0]), steps[1..], f);
    } else {
      RunLastWriteWins(Apply(v, steps[0]), steps[1..], f, i - 1);
    }
  }

  /** A field that no step writes keeps its old value. */
  lemma {:induction false} RunUntouched(v: ComputerValue, steps: seq<Step>, f: Field)
    requires forall j :: 0 <= j < |steps| ==> !Writes(steps[j], f)
    ensures Read(Run(v, steps), f) == Read(v, f)
    decreases |steps|
  {
    if steps != [] {
      RunUntouched(Apply(v, steps[0]), steps[1..], f);
    }
  }

  /** The director does not depend on the variant: products that differ only in type
      before a step sequence differ only in type after it. */
  lemma {:induction false} RunIgnoresKind(v: ComputerValue, w: ComputerValue, steps: seq<Step>)
    requires v.(kind := w.kind) == w
    ensures Run(v, steps).(kind := w.kind) == Run(w, steps)
    ensures Run(v, steps).kind == v.kind && Run(w, steps).kind == w.kind
    decreases |steps|
  {
    if steps != [] {
      RunIgnoresKind(Apply(v, steps[0]), Apply(w, steps[0]), steps[1..]);
    }
  }

  // ---------------------------------------------------------------------------
  // The two director sequences
  // ---------------------------------------------------------------------------

  /** assembleComputer keeps the type, sets the CPU and the storage, appends one module. */
  lemma AssembleComputerOutcome(v: ComputerValue)
    ensures Run(v, ComputerSteps) == ComputerValue(v.kind, "Intel i7", v.memory + ["16GB"], "512GB SSD")
  {
    RunSteps3(v, ComputerSteps);
  }

  /** assembleLaptop keeps the type, sets the CPU and the storage, appends three modules. */
  lemma AssembleLaptopOutcome(v: ComputerValue)
    ensures Run(v, LaptopSteps)
         == ComputerValue(v.kind, "Ryzen 9", v.memory + ["21GB", "16GB", "1212GB"], "Dysk Tysionc!")
  {
    RunSteps5(v, LaptopSteps);
    assert v.memory + ["21GB"] + ["16GB"] + ["1212GB"] == v.memory + ["21GB", "16GB", "1212GB"];
  }

  /** What the two directors make from freshly constructed builders of either variant. */
  lemma FreshBuilderProducts(variant: ComputerVariant)
    ensures Run(EmptyComputer.(kind := TypeName(variant)), ComputerSteps)
         == ComputerValue(TypeName(variant), "Intel i7", ["16GB"], "512GB SSD")
    ensures Run(EmptyComputer.(kind := TypeName(variant)), LaptopSteps)
         == ComputerValue(TypeName(variant), "Ryzen 9", ["21GB", "16GB", "1212GB"], "Dysk Tysionc!")
  {
    AssembleComputerOutcome(EmptyComputer.(kind := TypeName(variant)));
    AssembleLaptopOutcome(EmptyComputer.(kind := TypeName(variant)));
    assert [] + ["16GB"] == ["16GB"];
    assert [] + ["21GB", "16GB", "1212GB"] == ["21GB", "16GB", "1212GB"];
  }

  // ---------------------------------------------------------------------------
  // The display text
  // ---------------------------------------------------------------------------

  /** The memory part of the display: a space before each module, in list order. */
  function MemoryText(ms: seq<string>): (r: string)
    ensures r == "" <==> ms == []
    ensures r != "" ==> r[0] == ' '
    decreases |ms|
  {
    if ms == [] then "" else " " + ms[0] + MemoryText(ms[1..])
  }

  /** Everything Computer::display writes, one labelled line per field. */
  function ComputerText(v: ComputerValue): string
  {
    "Type: " + v.kind + "\n" + "CPU: " + v.cpu + "\n" + "Memory: " + MemoryText(v.memory)
      + "\nStorage: " + v.storage + "\n"
  }

  /** Appending one module extends the memory text by a space and that module. */
  lemma {:induction false} MemoryTextSnoc(ms: seq<string>, m: string)
    ensures MemoryText(ms + [m]) == MemoryText(ms) + " " + m
    decreases |ms|
  {
    if ms != [] {
      assert (ms + [m])[0] == ms[0];
      assert (ms + [m])[1..] == ms[1..] + [m];
      MemoryTextSnoc(ms[1..], m);
    }
  }

  /** The memory text holds no line break when no module name does. */
  lemma {:induction false} MemoryTextNoNewline(ms: seq<string>)
    requires forall i :: 0 <= i < |ms| ==> NoNewline(ms[i])
    ensures NoNewline(MemoryText(ms))
    decreases |ms|
  {
    if ms != [] {
      MemoryTextNoNewline(ms[1..]);
      assert MemoryText(ms) == " " + ms[0] + MemoryText(ms[1..]);
    }
  }

  /** When no field holds a line break, the display is exactly four lines: it holds four
      line breaks and ends with one. */
  lemma ComputerTextLines(v: ComputerValue)
    requires NoNewline(v.kind) && NoNewline(v.cpu) && NoNewline(v.storage)
    requires forall i :: 0 <= i < |v.memory| ==> NoNewline(v.memory[i])
    ensures multiset(ComputerText(v))['\n'] == 4
    ensures ComputerText(v)[|ComputerText(v)| - 1] == '\n'
  {
    MemoryTextNoNewline(v.memory);
    ComputerCaptionsHaveNoNewline();
    NoNewlineConcat("Type: ", v.kind);
    NoNewlineConcat("CPU: ", v.cpu);
    NoNewlineConcat("Memory: ", MemoryText(v.memory));
    NoNewlineConcat("Storage: ", v.storage);
    ComputerTextAsLines(v);
    FourLines("Type: " + v.kind, "CPU: " + v.cpu, "Memory: " + MemoryText(v.memory), "Storage: " + v.storage);
    EndsWithNewline(("Type: " + v.kind + "\n") + ("CPU: " + v.cpu + "\n") + ("Memory: " + MemoryText(v.memory) + "\n"),
                    "Storage: " + v.storage);
  }

  lemma EndsWithNewline(before: string, last: string)
    ensures var t := before + (last + "\n"); t[|t| - 1] == '\n'
  {
  }

  /** The display, regrouped as four lines each followed by a line break. */
  lemma ComputerTextAsLines(v: ComputerValue)
    ensures ComputerText(v)
         == ("Type: " + v.kind + "\n") + ("CPU: " + v.cpu + "\n")
          + ("Memory: " + MemoryText(v.memory) + "\n") + ("Storage: " + v.storage + "\n")
  {
    assert "\nStorage: " == "\n" + "Storage: ";
  }

  lemma ComputerCaptionsHaveNoNewline()
    ensures NoNewline("Type: ") && NoNewline("CPU: ") && NoNewline("Memory: ") && NoNewline("Storage: ")
  {
  }

  /** Four lines without inner line breaks, each ended by one, hold four line breaks. */
  lemma FourLines(a: string, b: string, c: string, d: string)
    requires NoNewline(a) && NoNewline(b) && NoNewline(c) && NoNewline(d)
    ensures multiset((a + "\n") + (b + "\n") + (c + "\n") + (d + "\n"))['\n'] == 4
  {
    assert multiset(a)['\n'] == 0;
    assert multiset(b)['\n'] == 0;
    assert multiset(c)['\n'] == 0;
    assert multiset(d)['\n'] == 0;
  }

  /** The longest prefix of `s` holding no space. */
  function Word(s: string): (w: string)
    ensures |w| <= |s| && w == s[..|w|] && ' ' !in w
    ensures |w| < |s| ==> s[|w|] == ' '
    decreases |s|
  {
    if s == [] || s[0] == ' ' then [] else [s[0]] + Word(s[1..])
  }

  /** Reads a memory text back: each space starts the next module name. */
  function ParseMemory(t: string): seq<string>
    decreases |t|
  {
    if t == [] then [] else
    var w := Word(t[1..]);
    [w] + ParseMemory(t[1 + |w|..])
  }

  predicate SpaceFree(ms: seq<string>)
  {
    forall i :: 0 <= i < |ms| ==> ' ' !in ms[i]
  }

  lemma {:induction false} WordOfPrefix(m: string, rest: string)
    requires ' ' !in m
    requires rest == [] || rest[0] == ' '
    ensures Word(m + rest) == m
    decreases |m|
  {
    if m != [] {
      assert (m + rest)[0] == m[0];
      assert (m + rest)[1..] == m[1..] + rest;
      WordOfPrefix(m[1..], rest);
    }
  }

  /** The memory line lists every module in order: when no module name holds a space,
      the list can be read back from the text. */
  lemma {:induction false} MemoryTextRoundTrip(ms: seq<string>)
    requires SpaceFree(ms)
    ensures ParseMemory(MemoryText(ms)) == ms
    decreases |ms|
  {
    if ms != [] {
      var rest := MemoryText(ms[1..]);
      var t := MemoryText(ms);
      assert t == " " + ms[0] + rest;
      assert rest == [] || rest[0] == ' ';
      assert t[1..] == ms[0] + rest;
      WordOfPrefix(ms[0], rest);
      assert t[1 + |ms[0]|..] == rest;
      MemoryTextRoundTrip(ms[1..]);
    }
  }

  /** A module name with a space in it is not told apart from two modules. */
  lemma SpacedModuleReadsAsTwo()
    ensures MemoryText(["a b"]) == MemoryText(["a", "b"])
    ensures ParseMemory(MemoryText(["a b"])) == ["a", "b"]
  {
    assert MemoryText(["a", "b"]) == " a b" by {
      assert ["a", "b"][1..] == ["b"];
    }
    assert MemoryText(["a b"]) == " a b";
    WordOfPrefix("a", " b");
    assert " a b"[1..] == "a" + " b";
    assert " a b"[2..] == " b";
    WordOfPrefix("b", "");
    assert " b"[1..] == "b" + "";
    assert " b"[2..] == "";
  }

  // ---------------------------------------------------------------------------
  // The product, updated in place
  // ---------------------------------------------------------------------------

  class Computer {
    var kind: string
    var cpu: string
    var memory: seq<string>
    var storage: string

    /** The default constructor: every field empty. */
    constructor ()
      ensures Value() == EmptyComputer
    {
      kind, cpu, memory, storage := "", "", [], "";
    }

    /** The copy constructor: a new object holding the same field values. */
    constructor Copy(v: ComputerValue)
      ensures Value() == v
    {
      kind, cpu, memory, storage := v.kind, v.cpu, v.memory, v.storage;
    }

    function Value(): ComputerValue
      reads this
    {
      ComputerValue(kind, cpu, memory, storage)
    }

    method SetCPU(c: string)
      modifies this
      ensures Value() == old(Value()).(cpu := c)
    {
      cpu := c;
    }

    method SetMemory(m: string)
      modifies this
      ensures Value() == old(Value()).(memory := old(memory) + [m])
    {
      memory := memory + [m];
    }

    method SetStorage(s: string)
      modifies this
      ensures Value() == old(Value()).(storage := s)
    {
      storage := s;
    }

    method SetType(t: string)
      modifies this
      ensures Value() == old(Value()).(kind := t)
    {
      kind := t;
    }

    /** The text display writes; the product is only read. */
    method Display() returns (text: string)
      ensures text == ComputerText(Value())
    {
      var header := "Type: " + kind + "\n" + "CPU: " + cpu + "\n" + "Memory: ";
      text := header;
      var i := 0;
      while i < |memory|
        invariant 0 <= i <= |memory|
        invariant text == header + MemoryText(memory[..i])
      {
        assert memory[..i + 1] == memory[..i] + [memory[i]];
        MemoryTextSnoc(memory[..i], memory[i]);
        text := text + " " + memory[i];
        i := i + 1;
      }
      assert memory[..i] == memory;
      text := text + "\nStorage: " + storage + "\n";
    }
  }

  // ---------------------------------------------------------------------------
  // The builder and the director
  // ---------------------------------------------------------------------------

  /** The two concrete builders; they differ only in the type their constructor sets. */
  datatype ComputerVariant = Desktop | Laptop

  function TypeName(variant: ComputerVariant): (r: string)
    ensures r == "Desktop" <==> variant == Desktop
    ensures r == "Laptop" <==> variant == Laptop
  {
    match variant
    case Desktop => "Desktop"
    case Laptop => "Laptop"
  }

  /** A concrete computer builder owning the product it fills in. */
  class ComputerBuilder {
    const variant: ComputerVariant
    const computer: Computer

    /** A fresh builder owns a fresh, empty product whose type names the variant. */
    constructor (variant: ComputerVariant)
      ensures this.variant == variant && fresh(computer)
      ensures computer.Value() == EmptyComputer.(kind := TypeName(variant))
    {
      var c := new Computer();
      c.SetType(TypeName(variant));
      this.variant := variant;
      computer := c;
    }

    method BuildCPU(c: string)
      modifies computer
      ensures computer.Value() == Apply(old(computer.Value()), CpuStep(c))
    {
      computer.SetCPU(c);
    }

    method BuildMemory(m: string)
      modifies computer
      ensures computer.Value() == Apply(old(computer.Value()), MemoryStep(m))
    {
      computer.SetMemory(m);
    }

    method BuildStorage(s: string)
      modifies computer
      ensures computer.Value() == Apply(old(computer.Value()), StorageStep(s))
    {
      computer.SetStorage(s);
    }

    /** A copy of the product: a new object, so later steps leave it as it is. */
    method GetResult() returns (r: Computer)
      ensures fresh(r) && r.Value() == computer.Value()
    {
      r := new Computer.Copy(computer.Value());
    }
  }

  /** The director: fixed step sequences on whichever builder it is given. */
  class ComputerAssembler {

    /** Directors hold no state. */
    constructor ()
    {
    }

    method AssembleComputer(builder: ComputerBuilder) returns (r: Computer)
      modifies builder.computer
      ensures builder.computer.Value() == Run(old(builder.computer.Value()), ComputerSteps)
      ensures fresh(r) && r.Value() == builder.computer.Value()
    {
      ghost var v0 := builder.computer.Value();
      builder.BuildCPU("Intel i7");
      builder.BuildMemory("16GB");
      builder.BuildStorage("512GB SSD");
      RunSteps3(v0, ComputerSteps);
      r := builder.GetResult();
    }

    method AssembleLaptop(builder: ComputerBuilder) returns (r: Computer)
      modifies builder.computer
      ensures builder.computer.Value() == Run(old(builder.computer.Value()), LaptopSteps)
      ensures fresh(r) && r.Value() == builder.computer.Value()
    {
      ghost var v0 := builder.computer.Value();
      builder.BuildCPU("Ryzen 9");
      builder.BuildMemory("21GB");
      builder.BuildMemory("16GB");
      builder.BuildMemory("1212GB");
      builder.BuildStorage("Dysk Tysionc!");
      RunSteps5(v0, LaptopSteps);
      r := builder.GetResult();
    }
  }

  /** Run over a sequence of three steps is the three steps applied in turn. */
  lemma RunSteps3(v: ComputerValue, steps: seq<Step>)
    requires |steps| == 3
    ensures Run(v, steps) == Apply(Apply(Apply(v, steps[0]), steps[1]), steps[2])
  {
    var v1 := Apply(v, steps[0]);
    var v2 := Apply(v1, steps[1]);
    assert Run(v, steps) == Run(v1, steps[1..]);
    assert steps[1..][0] == steps[1] && steps[1..][1..] == steps[2..];
    assert Run(v1, steps[1..]) == Run(v2, steps[2..]);
    assert steps[2..][0] == steps[2] && steps[2..][1..] == [];
    assert Run(v2, steps[2..]) == Run(Apply(v2, steps[2]), []);
  }

  /** Run over a sequence of five steps is the five steps applied in turn. */
  lemma RunSteps5(v: ComputerValue, steps: seq<Step>)
    requires |steps| == 5
    ensures Run(v, steps)
         == Apply(Apply(Apply(Apply(Apply(v, steps[0]), steps[1]), steps[2]), steps[3]), steps[4])
  {
    var v1 := Apply(v, steps[0]);
    var v2 := Apply(v1, steps[1]);
    assert Run(v, steps) == Run(v1, steps[1..]);
    assert steps[1..][0] == steps[1] && steps[1..][1..] == steps[2..];
    assert Run(v1, steps[1..]) == Run(v2, steps[2..]);
    RunSteps3(v2, steps[2..]);
  }
}
