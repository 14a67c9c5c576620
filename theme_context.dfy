/** The theme context: the dark/light theme state and its toggle, the
    effect that keeps the root element's class list in step with it, and
    the guard of `useTheme`. */
module ThemeContext {
  import opened Common

  datatype Theme = Dark | Light

  /** The class name of a theme. */
  function ClassOf(t: Theme): (name: string)
    ensures name == "dark" <==> t == Dark
    ensures name == "light" <==> t == Light
  {
    match t
    case Dark => "dark"
    case Light => "light"
  }

  /** `prevTheme === 'dark' ? 'light' : 'dark'`. */
  function Toggle(t: Theme): (next: Theme)
    ensures next != t
    ensures t == Dark ==> next == Light
    ensures t == Light ==> next == Dark
  {
    if t == Dark then Light else Dark
  }

  /** Toggling twice restores the theme. */
  lemma ToggleTwice(t: Theme)
    ensures Toggle(Toggle(t)) == t
  {
  }

  predicate IsThemeClass(c: string) { c == "dark" || c == "light" }
  predicate KeepsClass(c: string) { !IsThemeClass(c) }

  /** The ordered set a `DOMTokenList` holds for a class attribute: each
      class once, at its first occurrence, in attribute order. */
  function TokenSet(classes: seq<string>): (tokens: seq<string>)
    ensures |tokens| <= |classes|
  {
    if classes == [] then []
    else
      var tokens := TokenSet(classes[..|classes| - 1]);
      if classes[|classes| - 1] in tokens then tokens else tokens + [classes[|classes| - 1]]
  }

  /** The token set holds exactly the classes of the attribute. */
  lemma {:induction false} TokenSetMembers(classes: seq<string>)
    ensures forall c :: c in TokenSet(classes) <==> c in classes
  {
    if classes != [] {
      var init := classes[..|classes| - 1];
      TokenSetMembers(init);
      assert classes == init + [classes[|classes| - 1]];
    }
  }

  /** No class appears twice in the token set. */
  lemma {:induction false} TokenSetDistinct(classes: seq<string>)
    ensures Distinct(TokenSet(classes))
  {
    if classes != [] {
      TokenSetDistinct(classes[..|classes| - 1]);
    }
  }

  /** The token set keeps the attribute's order. */
  lemma {:induction false} TokenSetSubsequence(classes: seq<string>)
    ensures IsSubsequence(TokenSet(classes), classes)
  {
    if classes != [] {
      var init, last := classes[..|classes| - 1], classes[|classes| - 1];
      TokenSetSubsequence(init);
      assert classes == init + [last];
      if last in TokenSet(init) {
        SubsequenceExtend(TokenSet(init), init, last);
      } else {
        SubsequenceSnoc(TokenSet(init), init, last);
      }
    }
  }

  /** The token set lists the classes in the order they first occur. */
  lemma {:induction false} TokenSetOrder(classes: seq<string>)
    ensures InFirstOccurrenceOrder(TokenSet(classes), classes)
  {
    if classes != [] {
      var init, last := classes[..|classes| - 1], classes[|classes| - 1];
      TokenSetOrder(init);
      TokenSetMembers(init);
      assert classes == init + [last];
      if last in TokenSet(init) {
        OrderSnoc(TokenSet(init), init, last);
      } else {
        OrderAppendNew(TokenSet(init), init, last);
      }
    }
  }

  /** A class list without repeats is its own token set. */
  lemma {:induction false} TokenSetOfDistinct(classes: seq<string>)
    requires Distinct(classes)
    ensures TokenSet(classes) == classes
  {
    if classes != [] {
      var init := classes[..|classes| - 1];
      assert Distinct(init) by {
        forall i, j | 0 <= i < j < |init| ensures init[i] != init[j] {
          assert init[i] == classes[i] && init[j] == classes[j];
        }
      }
      TokenSetOfDistinct(init);
      TokenSetMembers(init);
      assert classes[|classes| - 1] !in init by {
        forall k | 0 <= k < |init| ensures init[k] != classes[|classes| - 1] { assert init[k] == classes[k]; }
      }
      assert classes == init + [classes[|classes| - 1]];
    }
  }

  /** The non-theme classes, once each, in first-occurrence order. */
  function KeptTokens(classes: seq<string>): (rest: seq<string>)
    ensures Distinct(rest)
    ensures forall i :: 0 <= i < |rest| ==> KeepsClass(rest[i])
    ensures forall c :: KeepsClass(c) ==> (c in rest <==> c in classes)
    ensures IsSubsequence(rest, classes)
    ensures InFirstOccurrenceOrder(rest, classes)
    ensures Distinct(classes) ==> rest == Filter(classes, KeepsClass)
  {
    var kept := Filter(classes, KeepsClass);
    TokenSetMembers(kept);
    TokenSetDistinct(kept);
    TokenSetSubsequence(kept);
    FilterIsSubsequence(classes, KeepsClass);
    SubsequenceTrans(TokenSet(kept), kept, classes);
    forall c | KeepsClass(c) ensures c in kept <==> c in classes {
      FilterMembership(classes, KeepsClass, c);
    }
    KeptClassesOfDistinct(classes);
    var rest := TokenSet(kept);
    TokenSetOrder(kept);
    OrderOfFilter(rest, classes, KeepsClass);
    forall i | 0 <= i < |rest| ensures KeepsClass(rest[i]) {
      assert rest[i] in kept;
      var j :| 0 <= j < |kept| && kept[j] == rest[i];
    }
    rest
  }

  lemma KeptClassesOfDistinct(classes: seq<string>)
    ensures Distinct(classes) ==> TokenSet(Filter(classes, KeepsClass)) == Filter(classes, KeepsClass)
  {
    if Distinct(classes) {
      FilterDistinct(classes, KeepsClass);
      TokenSetOfDistinct(Filter(classes, KeepsClass));
    }
  }

  /** `classList.remove('dark', 'light')` followed by `classList.add(theme)`
      on the root's token set: every theme class is dropped, each other
      class stays once in its first-occurrence order, and the current
      theme's class is appended. */
  function ApplyTheme(classes: seq<string>, t: Theme): (result: seq<string>)
    ensures |result| >= 1 && result[|result| - 1] == ClassOf(t)
    ensures result[..|result| - 1] == KeptTokens(classes)
    ensures IsSubsequence(result[..|result| - 1], classes)
    ensures InFirstOccurrenceOrder(result[..|result| - 1], classes)
    ensures Distinct(classes) ==> result[..|result| - 1] == Filter(classes, KeepsClass)
    ensures Distinct(result)
    ensures ClassOf(Toggle(t)) !in result
    ensures multiset(result)[ClassOf(t)] == 1
    ensures forall c :: KeepsClass(c) ==> (c in result <==> c in classes)
    ensures forall c :: KeepsClass(c) ==> multiset(result)[c] == if c in classes then 1 else 0
  {
    var rest := KeptTokens(classes);
    var result := AddClass(rest, ClassOf(t));
    assert ClassOf(t) !in rest && ClassOf(Toggle(t)) !in rest;
    assert result == rest + [ClassOf(t)];
    forall c ensures multiset(result)[c] == if c in result then 1 else 0 {
      DistinctCount(result, c);
    }
    result
  }

  /** `DOMTokenList.add`: a token already present is not added again. */
  function AddClass(classes: seq<string>, c: string): (result: seq<string>)
    ensures c in result
    ensures c in classes ==> result == classes
    ensures c !in classes ==> result == classes + [c]
    ensures Distinct(classes) ==> Distinct(result)
  {
    if c in classes then classes else classes + [c]
  }

  /** Running the effect again for the same theme changes nothing. */
  lemma ApplyThemeIdempotent(classes: seq<string>, t: Theme)
    ensures ApplyTheme(ApplyTheme(classes, t), t) == ApplyTheme(classes, t)
  {
    var rest := KeptTokens(classes);
    RefilterAfterTheme(rest, ClassOf(t));
    assert ApplyTheme(classes, t) == rest + [ClassOf(t)];
    TokenSetOfDistinct(rest);
  }

  lemma RefilterAfterTheme(rest: seq<string>, c: string)
    requires forall i :: 0 <= i < |rest| ==> KeepsClass(rest[i])
    requires IsThemeClass(c)
    ensures Filter(rest + [c], KeepsClass) == rest
    ensures c !in rest
  {
    FilterAppend(rest, [c], KeepsClass);
    FilterAll(rest, KeepsClass);
    assert Filter([c], KeepsClass) == [];
  }

  /** The outcome of `useTheme`: the context's theme, or the error it throws. */
  datatype ThemeOutcome = Provided(theme: Theme) | Thrown(message: string)

  const OutsideProviderMessage: string := "useTheme must be used within a ThemeProvider"

  function UseTheme(context: Option<Theme>): (outcome: ThemeOutcome)
    ensures outcome.Thrown? <==> context.None?
    ensures outcome.Thrown? ==> outcome.message == OutsideProviderMessage
    ensures context.Some? ==> outcome == Provided(context.value)
  {
    match context
    case None => Thrown(OutsideProviderMessage)
    case Some(t) => Provided(t)
  }

  /** The provider's theme state and the root element's class list. */
  class ThemeProvider {
    var theme: Theme
    var rootClasses: seq<string>

    /** The theme starts dark; the class list is the document's own until
        the effect runs. */
    constructor (classes: seq<string>)
      ensures theme == Dark && rootClasses == classes
    {
      theme := Dark;
      rootClasses := classes;
    }

    /** `toggleTheme`. */
    method ToggleTheme()
      modifies this`theme
      ensures theme == Toggle(old(theme))
    {
      theme := if theme == Dark then Light else Dark;
    }

    /** The effect run after a theme change. */
    method ApplyToRoot()
      modifies this`rootClasses
      ensures rootClasses == ApplyTheme(old(rootClasses), theme)
      ensures ClassOf(theme) in rootClasses && ClassOf(Toggle(theme)) !in rootClasses
      ensures Distinct(rootClasses)
    {
      rootClasses := ApplyTheme(rootClasses, theme);
    }
  }
}
