/**
 * The cascade resolver: an ordered list of property sets (highest priority
 * first) plus an optional parent cascade used for inheritance, resolving a
 * property name through the cascaded, specified and computed stages.
 */
module StyleCascades {
  import opened StyleValues
  import opened StyleUnits
  import opened StyleSets

  /**
   * The per-property tables the resolver consults: which properties are
   * inherited, and the initial value of every recognised property.
   */
  datatype PropertyTable = PropertyTable(inherited: set<string>, initial: map<string, StyleGetValue>)
  {
    /** Only recognised properties are inherited, and no initial value is undefined. */
    predicate WellFormed() {
      inherited <= initial.Keys
      && forall name :: name in initial ==> !initial[name].IsUndefined()
    }

    /** The initial value of a property; undefined for a name the table does not know. */
    function InitialValue(name: string): (r: StyleGetValue)
      ensures name !in initial ==> r.IsUndefined()
      ensures WellFormed() && name in initial ==> !r.IsUndefined()
    {
      if name in initial then initial[name] else StyleGetValue.UndefinedValue
    }
  }

  /** The first value that a property set in `styles` declares for `name`, in order; undefined if none does. */
  function FirstDeclared(styles: seq<Style>, name: string): (r: StyleGetValue)
    reads styles
    ensures styles == [] ==> r.IsUndefined()
    ensures !r.IsUndefined() ==> exists k :: 0 <= k < |styles| && styles[k].DeclaredValue(name) == r
  {
    if styles == [] then StyleGetValue.UndefinedValue
    else if !styles[0].DeclaredValue(name).IsUndefined() then styles[0].DeclaredValue(name)
    else FirstDeclared(styles[1..], name)
  }

  /** Some property set in `styles` declares `v` for `name`. */
  ghost predicate DeclaredIn(styles: set<Style>, name: string, v: StyleGetValue)
    reads styles
  {
    exists s :: s in styles && s.DeclaredValue(name) == v
  }

  /** The value found is that of the first property set declaring the property. */
  lemma {:induction false} FirstDeclaredIsFirst(styles: seq<Style>, name: string, k: nat)
    requires k < |styles|
    requires !styles[k].DeclaredValue(name).IsUndefined()
    requires forall j :: 0 <= j < k ==> styles[j].DeclaredValue(name).IsUndefined()
    ensures FirstDeclared(styles, name) == styles[k].DeclaredValue(name)
  {
    if k > 0 {
      forall j | 0 <= j < k - 1 ensures styles[1..][j].DeclaredValue(name).IsUndefined() {
        assert styles[1..][j] == styles[j + 1];
      }
      FirstDeclaredIsFirst(styles[1..], name, k - 1);
    }
  }

  /** The result is undefined exactly when no property set declares the property. */
  lemma {:induction false} FirstDeclaredUndefinedIff(styles: seq<Style>, name: string)
    ensures FirstDeclared(styles, name).IsUndefined()
            <==> forall j :: 0 <= j < |styles| ==> styles[j].DeclaredValue(name).IsUndefined()
  {
    if styles != [] {
      FirstDeclaredUndefinedIff(styles[1..], name);
      if styles[0].DeclaredValue(name).IsUndefined() {
        forall j | 0 <= j < |styles| - 1 ensures styles[1..][j] == styles[j + 1] { }
      }
    }
  }

  /** A defined result comes from some property set, and every earlier one leaves the property undeclared. */
  lemma {:induction false} FirstDeclaredSource(styles: seq<Style>, name: string) returns (k: nat)
    requires !FirstDeclared(styles, name).IsUndefined()
    ensures k < |styles|
    ensures styles[k].DeclaredValue(name) == FirstDeclared(styles, name)
    ensures forall j :: 0 <= j < k ==> styles[j].DeclaredValue(name).IsUndefined()
  {
    if styles[0].DeclaredValue(name).IsUndefined() {
      var k' := FirstDeclaredSource(styles[1..], name);
      k := k' + 1;
      forall j | 0 < j < k ensures styles[j].DeclaredValue(name).IsUndefined() {
        assert styles[j] == styles[1..][j - 1];
      }
    } else {
      k := 0;
    }
  }

  /** One element's resolution context. It owns neither its property sets nor its parent. */
  class StyleCascade {
    var cascade: seq<Style>
    var parent: StyleCascade?

    /** This cascade and all its ancestors. */
    ghost var chain: set<StyleCascade>
    /** Every property set of this cascade and its ancestors. */
    ghost var styles: set<Style>
    /** Length of the parent chain; it strictly decreases towards the root, so the chain is acyclic. */
    ghost var depth: nat

    ghost predicate Valid()
      reads this, chain
      decreases depth
    {
      && this in chain
      && (forall s :: s in cascade ==> s in styles)
      && (parent == null ==> depth == 0)
      && (parent != null ==>
            && parent in chain
            && parent.chain <= chain
            && parent.styles <= styles
            && parent.depth < depth
            && parent.Valid())
    }

    constructor(cascade: seq<Style>, parent: StyleCascade?)
      requires parent != null ==> parent.Valid()
      ensures Valid()
      ensures this.cascade == cascade && this.parent == parent
    {
      this.cascade := cascade;
      this.parent := parent;
      if parent == null {
        chain, styles, depth := {this}, set s | s in cascade, 0;
      } else {
        chain, styles, depth := {this} + parent.chain, (set s | s in cascade) + parent.styles, parent.depth + 1;
      }
    }

    /**
     * The specified value: the cascaded value if there is one; otherwise,
     * for an inherited property with a parent, the parent's specified value;
     * otherwise the initial value (undefined for an unknown name).
     */
    function Specified(name: string, props: PropertyTable): (r: StyleGetValue)
      requires Valid()
      reads this, chain, styles
      ensures r.IsUndefined() ==> FirstDeclared(cascade, name).IsUndefined()
      decreases depth
    {
      var v := FirstDeclared(cascade, name);
      if !v.IsUndefined() then v
      else if name in props.inherited && parent != null then parent.Specified(name, props)
      else props.InitialValue(name)
    }

    /** Scans the property sets front to back and returns the first declared value. */
    method CascadeValue(name: string) returns (r: StyleGetValue)
      ensures r == FirstDeclared(cascade, name)
    {
      var i := 0;
      while i < |cascade|
        invariant 0 <= i <= |cascade|
        invariant FirstDeclared(cascade[i..], name) == FirstDeclared(cascade, name)
      {
        assert cascade[i..][1..] == cascade[i + 1..];
        var v := cascade[i].DeclaredValue(name);
        if !v.IsUndefined() {
          return v;
        }
        i := i + 1;
      }
      return StyleGetValue.UndefinedValue;
    }

    /** Resolves inheritance by walking up the parent chain, then falls back to the initial value. */
    method SpecifiedValue(name: string, props: PropertyTable) returns (r: StyleGetValue)
      requires Valid()
      ensures r == Specified(name, props)
    {
      var c: StyleCascade := this;
      var v := c.CascadeValue(name);
      while v.IsUndefined() && name in props.inherited && c.parent != null
        invariant c.Valid()
        invariant v == FirstDeclared(c.cascade, name)
        invariant c.Specified(name, props) == Specified(name, props)
        decreases c.depth
      {
        c := c.parent;
        v := c.CascadeValue(name);
      }
      r := if !v.IsUndefined() then v else props.InitialValue(name);
    }

    /** The specified value normalised to canonical units. */
    method ComputedValue(name: string, props: PropertyTable, ctx: LengthContext) returns (r: StyleGetValue)
      requires Valid()
      ensures r == ComputeValue(Specified(name, props), ctx)
    {
      var v := SpecifiedValue(name, props);
      r := ComputeValue(v, ctx);
    }
  }

  /** A recognised property always resolves to a defined specified value. */
  lemma {:induction false} SpecifiedDefinedForKnown(c: StyleCascade, name: string, props: PropertyTable)
    requires c.Valid() && props.WellFormed() && name in props.initial
    ensures !c.Specified(name, props).IsUndefined()
    decreases c.depth
  {
    if FirstDeclared(c.cascade, name).IsUndefined() && name in props.inherited && c.parent != null {
      SpecifiedDefinedForKnown(c.parent, name, props);
    }
  }

  /** A specified value is the initial value or a value declared by a property set of the element or an ancestor. */
  lemma {:induction false} SpecifiedSource(c: StyleCascade, name: string, props: PropertyTable)
    requires c.Valid()
    ensures c.Specified(name, props) == props.InitialValue(name)
            || (!c.Specified(name, props).IsUndefined() && DeclaredIn(c.styles, name, c.Specified(name, props)))
    decreases c.depth
  {
    var v := FirstDeclared(c.cascade, name);
    if !v.IsUndefined() {
      var k :| 0 <= k < |c.cascade| && c.cascade[k].DeclaredValue(name) == v;
      assert c.cascade[k] in c.styles;
    } else if name in props.inherited && c.parent != null {
      SpecifiedSource(c.parent, name, props);
    }
  }

  /** An unknown property resolves to its cascaded value unchanged (undefined if nothing declares it). */
  lemma SpecifiedUnknownIsCascaded(c: StyleCascade, name: string, props: PropertyTable)
    requires c.Valid() && props.WellFormed() && name !in props.initial
    ensures c.Specified(name, props) == FirstDeclared(c.cascade, name)
  {
  }

  /** A non-inherited property does not depend on the parent: two cascades over the same property sets agree. */
  lemma NonInheritedIgnoresParent(a: StyleCascade, b: StyleCascade, name: string, props: PropertyTable)
    requires a.Valid() && b.Valid() && a.cascade == b.cascade && name !in props.inherited
    ensures a.Specified(name, props) == b.Specified(name, props)
    ensures FirstDeclared(a.cascade, name).IsUndefined() ==> a.Specified(name, props) == props.InitialValue(name)
  {
  }

  /** An inherited property that this element does not declare takes the parent's specified value. */
  lemma InheritedFromParent(c: StyleCascade, name: string, props: PropertyTable)
    requires c.Valid() && c.parent != null && name in props.inherited
    requires forall j :: 0 <= j < |c.cascade| ==> c.cascade[j].DeclaredValue(name).IsUndefined()
    ensures c.Specified(name, props) == c.parent.Specified(name, props)
  {
    FirstDeclaredUndefinedIff(c.cascade, name);
  }

  /** A declared value wins over inheritance and initial values, whoever the parent is. */
  lemma DeclaredWins(c: StyleCascade, name: string, props: PropertyTable, k: nat)
    requires c.Valid() && k < |c.cascade|
    requires !c.cascade[k].DeclaredValue(name).IsUndefined()
    requires forall j :: 0 <= j < k ==> c.cascade[j].DeclaredValue(name).IsUndefined()
    ensures c.Specified(name, props) == c.cascade[k].DeclaredValue(name)
  {
    FirstDeclaredIsFirst(c.cascade, name, k);
  }

  /** Only the lower-priority base set declares margin: the scan falls back within the stack to it. */
  method FallbackWithinStack() returns (margin: StyleGetValue)
    ensures margin == StyleGetValue.FromLength(4.0, Px)
  {
    var overrides := new Style();
    var base := new Style();
    base.Set([("margin", StyleSetValue.FromLength(4.0))]);
    var c := new StyleCascade([overrides, base], null);
    margin := c.CascadeValue("margin");
  }

  /** A colour declaration is read back as a colour value holding that colour. */
  method DeclaredColor() returns (color: StyleGetValue)
    ensures color.IsColor() && color.Color() == Colorf(1.0, 0.0, 0.0, 1.0)
  {
    var style := new Style();
    style.Set([("color", StyleSetValue.FromColor(Colorf(1.0, 0.0, 0.0, 1.0)))]);
    color := style.DeclaredValue("color");
  }

  /** An inherited property the child does not declare comes from the parent's declaration. */
  method InheritFromParent() returns (color: StyleGetValue)
    ensures color == StyleGetValue.FromKeyword("red")
  {
    var props := PropertyTable({"color"}, map["color" := StyleGetValue.FromKeyword("black")]);
    var parentStyle := new Style();
    parentStyle.Set([("color", StyleSetValue.FromKeyword("red"))]);
    var parent := new StyleCascade([parentStyle], null);
    var childStyle := new Style();
    var child := new StyleCascade([childStyle], parent);
    assert parentStyle.DeclaredValue("color") == StyleGetValue.FromKeyword("red");
    assert childStyle.DeclaredValue("color").IsUndefined();
    InheritedFromParent(child, "color", props);
    DeclaredWins(parent, "color", props, 0);
    color := child.SpecifiedValue("color", props);
  }
}
