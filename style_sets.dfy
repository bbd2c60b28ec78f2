/**
 * The property set `Style`: a store of declared values keyed by property
 * name, plus the rgba helper for colours.
 *
 * A declaration block is parsed by an external parser into (name, value)
 * pairs before it reaches the set; `Set` takes those pairs.
 */
module StyleSets {
  import opened StyleValues

  /** A parsed declaration `name: value`. */
  type Declaration = (string, StyleSetValue)

  /** The properties after applying `decls` in order to `m`: each one upserts, nothing is cleared. */
  function ApplyDeclarations(m: map<string, StyleSetValue>, decls: seq<Declaration>): (r: map<string, StyleSetValue>)
    ensures m.Keys <= r.Keys
  {
    if decls == [] then m
    else ApplyDeclarations(m, decls[..|decls| - 1])[decls[|decls| - 1].0 := decls[|decls| - 1].1]
  }

  /** The names declared in `decls`. */
  function DeclaredNames(decls: seq<Declaration>): set<string> {
    set i | 0 <= i < |decls| :: decls[i].0
  }

  /** After a set, exactly the old names and the declared names are present. */
  lemma {:induction false} ApplyDeclarationsKeys(m: map<string, StyleSetValue>, decls: seq<Declaration>)
    ensures ApplyDeclarations(m, decls).Keys == m.Keys + DeclaredNames(decls)
  {
    if decls != [] {
      var init := decls[..|decls| - 1];
      ApplyDeclarationsKeys(m, init);
      assert DeclaredNames(decls) == DeclaredNames(init) + {decls[|decls| - 1].0} by {
        forall x | x in DeclaredNames(decls) ensures x in DeclaredNames(init) + {decls[|decls| - 1].0} {
          var i :| 0 <= i < |decls| && decls[i].0 == x;
          if i < |decls| - 1 { assert init[i] == decls[i]; }
        }
        forall x | x in DeclaredNames(init) ensures x in DeclaredNames(decls) {
          var i :| 0 <= i < |init| && init[i].0 == x;
          assert decls[i] == init[i];
        }
      }
    }
  }

  /** A property no declaration names keeps its old value (or stays absent). */
  lemma {:induction false} ApplyDeclarationsUntouched(m: map<string, StyleSetValue>, decls: seq<Declaration>, name: string)
    requires forall i :: 0 <= i < |decls| ==> decls[i].0 != name
    ensures name in m <==> name in ApplyDeclarations(m, decls)
    ensures name in m ==> ApplyDeclarations(m, decls)[name] == m[name]
  {
    if decls != [] {
      ApplyDeclarationsUntouched(m, decls[..|decls| - 1], name);
    }
  }

  /** The last declaration of a property wins. */
  lemma {:induction false} ApplyDeclarationsLastWins(m: map<string, StyleSetValue>, decls: seq<Declaration>, k: nat)
    requires k < |decls|
    requires forall j :: k < j < |decls| ==> decls[j].0 != decls[k].0
    ensures decls[k].0 in ApplyDeclarations(m, decls)
    ensures ApplyDeclarations(m, decls)[decls[k].0] == decls[k].1
  {
    if k < |decls| - 1 {
      var init := decls[..|decls| - 1];
      assert init[k] == decls[k];
      forall j | k < j < |init| ensures init[j].0 != init[k].0 {
        assert init[j] == decls[j];
      }
      ApplyDeclarationsLastWins(m, init, k);
    }
  }

  /** A property set. It has no copy operations in the original; cascades refer to it by identity. */
  class Style {
    var properties: map<string, StyleSetValue>

    constructor()
      ensures properties == map[]
    {
      properties := map[];
    }

    /** Applies parsed declarations in order without clearing what was set before. */
    method Set(decls: seq<Declaration>)
      modifies this
      ensures properties == ApplyDeclarations(old(properties), decls)
    {
      var i := 0;
      while i < |decls|
        invariant 0 <= i <= |decls|
        invariant properties == ApplyDeclarations(old(properties), decls[..i])
      {
        assert decls[..i + 1][..i] == decls[..i];
        properties := properties[decls[i].0 := decls[i].1];
        i := i + 1;
      }
      assert decls[..i] == decls;
    }

    /** The declared value of a property, or undefined when it was never declared. */
    function DeclaredValue(name: string): (r: StyleGetValue)
      reads this
      ensures name !in properties ==> r.IsUndefined()
      ensures name in properties ==> r == properties[name].ToGetValue()
    {
      if name in properties then properties[name].ToGetValue() else StyleGetValue.UndefinedValue
    }
  }

  /** std::round: halves are rounded away from zero. */
  function Round(x: real): (n: int)
    ensures (n as real) - 0.5 <= x <= (n as real) + 0.5
    ensures x >= 0.0 ==> (n as real) <= x + 0.5 < (n as real) + 1.0
    ensures x < 0.0 ==> (n as real) - 1.0 < x - 0.5 <= (n as real)
  {
    if x >= 0.0 then (x + 0.5).Floor else -((-x + 0.5).Floor)
  }

  /** std::clamp: a value below the range saturates to `lo`, above it to `hi`, and is kept inside it. */
  function Clamp(n: int, lo: int, hi: int): (r: int)
    requires lo <= hi
    ensures lo <= r <= hi
    ensures lo <= n <= hi ==> r == n
    ensures n < lo ==> r == lo
    ensures n > hi ==> r == hi
  {
    if n < lo then lo else if n > hi then hi else n
  }

  /** The four arguments to_rgba substitutes into "rgba(%1,%2,%3,%4)". */
  datatype RgbaArguments = RgbaArguments(red: int, green: int, blue: int, alpha: real)

  /** One colour channel as the integer 0..255 it is written as. */
  function ChannelByte(x: real): (n: int)
    ensures 0 <= n <= 255
    ensures 0 <= Round(x * 255.0) <= 255 ==> n == Round(x * 255.0)
    ensures Round(x * 255.0) < 0 ==> n == 0
    ensures Round(x * 255.0) > 255 ==> n == 255
    ensures x <= 0.0 ==> n == 0
    ensures x >= 1.0 ==> n == 255
  {
    Clamp(Round(x * 255.0), 0, 255)
  }

  /** The arguments of the rgba text for `c`: rounded, clamped channels and the alpha unchanged. */
  function ToRgba(c: Colorf): (r: RgbaArguments)
    ensures 0 <= r.red <= 255 && 0 <= r.green <= 255 && 0 <= r.blue <= 255
    ensures r.alpha == c.a
    ensures 0 <= Round(c.r * 255.0) <= 255 ==> r.red == Round(c.r * 255.0)
    ensures 0 <= Round(c.g * 255.0) <= 255 ==> r.green == Round(c.g * 255.0)
    ensures 0 <= Round(c.b * 255.0) <= 255 ==> r.blue == Round(c.b * 255.0)
    ensures c.r <= 0.0 ==> r.red == 0
    ensures c.g <= 0.0 ==> r.green == 0
    ensures c.b <= 0.0 ==> r.blue == 0
    ensures c.r >= 1.0 ==> r.red == 255
    ensures c.g >= 1.0 ==> r.green == 255
    ensures c.b >= 1.0 ==> r.blue == 255
  {
    RgbaArguments(ChannelByte(c.r), ChannelByte(c.g), ChannelByte(c.b), c.a)
  }

  /** A channel that came from a byte is written back as that byte. */
  lemma ChannelByteRoundTrip(k: int)
    requires 0 <= k <= 255
    ensures ChannelByte((k as real) / 255.0) == k
  {
  }

  /** Opaque red is written as rgba(255,0,0,1). */
  lemma OpaqueRedRgba()
    ensures ToRgba(Colorf(1.0, 0.0, 0.0, 1.0)) == RgbaArguments(255, 0, 0, 1.0)
  {
  }
}
