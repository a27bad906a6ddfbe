/** The label strings of the return-stack and indirect-branch tests. The programs are proved with labels as structured
    values; the strings the generators print tell the same labels apart. */
module LabelNames {
  import opened Symbols
  import opened Names

  predicate Named(x: Symbol) {
    x.StackTop? || x.StackLoop? || x.StackFn? || x.IndirectTop? || x.IndirectLoop? || x.IndirectTarget? || x.IndirectHist?
  }

  predicate OfStack(x: Symbol) {
    x.StackTop? || x.StackLoop? || x.StackFn?
  }

  /** What follows the first number of a return-stack label. */
  function StackRest(x: Symbol): string
    requires OfStack(x)
  {
    if x.StackTop? then "" else if x.StackLoop? then "_loop" else "_" + Dec(x.depth)
  }

  /** What follows the second number of an indirect-branch label. */
  function IndirectRest(x: Symbol): string
    requires Named(x) && !OfStack(x)
  {
    if x.IndirectTop? then ""
    else if x.IndirectLoop? then "_loop"
    else "branch" + (Dec(x.branch) + Tail(x))
  }

  /** What follows the third number. */
  function Tail(x: Symbol): (s: string)
    requires x.IndirectTarget? || x.IndirectHist?
    ensures s != ""
  {
    if x.IndirectTarget? then "target" + Dec(x.index) else "ghist" + Dec(x.bit)
  }

  /** The string printed for a label. */
  function Name(x: Symbol): string
    requires Named(x)
  {
    if OfStack(x) then "returnstack" + (Dec(x.count) + StackRest(x))
    else "indirectbranch" + (Dec(x.branches) + ("targets" + (Dec(x.targets) + IndirectRest(x))))
  }

  lemma StackKinds(x: Symbol)
    requires OfStack(x)
    ensures x.StackTop? <==> StackRest(x) == ""
    ensures x.StackLoop? <==> |StackRest(x)| >= 2 && StackRest(x)[1] == 'l'
  {
    if x.StackFn? {
      assert StackRest(x)[1] == Dec(x.depth)[0] && IsDigit(Dec(x.depth)[0]);
    }
  }

  lemma StackSplit(x: Symbol, y: Symbol)
    requires OfStack(x) && OfStack(y) && StackRest(x) == StackRest(y) && x.count == y.count
    ensures x == y
  {
    StackKinds(x);
    StackKinds(y);
    if x.StackFn? {
      Cancel("_", Dec(x.depth), Dec(y.depth));
      DecInjective(x.depth, y.depth);
    }
  }

  lemma BranchSplit(b: nat, s: string, b': nat, s': string)
    requires "branch" + (Dec(b) + s) == "branch" + (Dec(b') + s') && Stops(s) && Stops(s')
    ensures b == b' && s == s'
  {
    Cancel("branch", Dec(b) + s, Dec(b') + s');
    DecSplit(b, s, b', s');
  }

  lemma IndirectKinds(x: Symbol)
    requires Named(x) && !OfStack(x)
    ensures x.IndirectTop? <==> IndirectRest(x) == ""
    ensures x.IndirectLoop? <==> IndirectRest(x) != "" && IndirectRest(x)[0] == '_'
    ensures x.IndirectTarget? || x.IndirectHist? ==> Stops(Tail(x)) && (x.IndirectTarget? <==> Tail(x)[0] == 't')
  {
    if x.IndirectTarget? || x.IndirectHist? {
      assert IndirectRest(x)[0] == 'b';
    }
  }

  lemma IndirectSplit(x: Symbol, y: Symbol)
    requires Named(x) && Named(y) && !OfStack(x) && !OfStack(y) && IndirectRest(x) == IndirectRest(y)
    requires x.branches == y.branches && x.targets == y.targets
    ensures x == y
  {
    IndirectKinds(x);
    IndirectKinds(y);
    if x.IndirectTarget? || x.IndirectHist? {
      BranchSplit(x.branch, Tail(x), y.branch, Tail(y));
      if x.IndirectTarget? {
        Cancel("target", Dec(x.index), Dec(y.index));
        DecInjective(x.index, y.index);
      } else {
        Cancel("ghist", Dec(x.bit), Dec(y.bit));
        DecInjective(x.bit, y.bit);
      }
    }
  }

  lemma RestStops(x: Symbol)
    requires Named(x)
    ensures if OfStack(x) then Stops(StackRest(x)) else Stops(IndirectRest(x))
  {
    if x.StackFn? {
      assert StackRest(x)[0] == '_';
    } else if x.IndirectTarget? || x.IndirectHist? {
      assert IndirectRest(x)[0] == 'b';
    }
  }

  /** Different labels have different names: every number can be read off the string. */
  lemma NameInjective(x: Symbol, y: Symbol)
    requires Named(x) && Named(y) && Name(x) == Name(y)
    ensures x == y
  {
    hide Dec, StackRest, IndirectRest, Stops;
    RestStops(x);
    RestStops(y);
    FirstLetter(x);
    FirstLetter(y);
    if OfStack(x) {
      Cancel("returnstack", Dec(x.count) + StackRest(x), Dec(y.count) + StackRest(y));
      DecSplit(x.count, StackRest(x), y.count, StackRest(y));
      StackSplit(x, y);
    } else {
      var a, b := "targets" + (Dec(x.targets) + IndirectRest(x)), "targets" + (Dec(y.targets) + IndirectRest(y));
      Cancel("indirectbranch", Dec(x.branches) + a, Dec(y.branches) + b);
      TargetsStop(Dec(x.targets) + IndirectRest(x));
      TargetsStop(Dec(y.targets) + IndirectRest(y));
      DecSplit(x.branches, a, y.branches, b);
      Cancel("targets", Dec(x.targets) + IndirectRest(x), Dec(y.targets) + IndirectRest(y));
      DecSplit(x.targets, IndirectRest(x), y.targets, IndirectRest(y));
      IndirectSplit(x, y);
    }
  }

  /** The labels of the return-stack test for depth 4, as printed. */
  lemma StackPrinted()
    ensures Name(StackTop(4)) == "returnstack4" && Name(StackLoop(4)) == "returnstack4_loop" && Name(StackFn(4, 2)) == "returnstack4_2"
  {
    hide Dec;
    Numerals();
  }

  /** One label of each kind of the indirect-branch test for 2 branches and 8 targets, as printed. */
  lemma IndirectPrinted()
    ensures Name(IndirectTop(2, 8)) == "indirectbranch2targets8" && Name(IndirectLoop(2, 8)) == "indirectbranch2targets8_loop"
  {
    hide Dec;
    Numerals();
  }

  lemma TargetPrinted()
    ensures Name(IndirectTarget(2, 8, 1, 3)) == "indirectbranch2targets8branch1target3"
  {
    hide Dec;
    Numerals();
  }

  lemma HistPrinted()
    ensures Name(IndirectHist(2, 8, 1, 3)) == "indirectbranch2targets8branch1ghist3"
  {
    hide Dec;
    Numerals();
  }

  lemma FirstLetter(x: Symbol)
    requires Named(x)
    ensures Name(x) != "" && (OfStack(x) <==> Name(x)[0] == 'r')
  {
  }

  lemma TargetsStop(s: string)
    ensures Stops("targets" + s)
  {
    assert ("targets" + s)[0] == 't';
  }
}
