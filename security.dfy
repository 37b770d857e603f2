/**
 * The class sets that `_setSecurityUI` (module/actor/actor-sheet.js) leaves on the
 * window element and on its scrollbar element, as functions of the sets it found.
 */
module Security {
  import opened Wrappers
  import opened HostConfig

  /** The scrollbar variant of a class name. */
  function SbClass(c: string): (r: string) {
    c + "_sb"
  }

  /** The `_sb` variants of every class the mapping names. */
  function SbVariants(css: map<string, string>): (r: set<string>)
    ensures forall c :: c in r ==> |c| >= 3 && c[|c| - 3..] == "_sb"
  {
    set v | v in css.Values :: SbClass(v)
  }

  /** The class applied for `clearance`: its mapped class, or "undefined" when it has none. */
  function AppliedClass(css: map<string, string>, clearance: string): (c: string)
    ensures c in css.Values || c == "undefined"
  {
    JsString(Lookup(css, clearance))
  }

  /** A configured clearance applies one of its mapped classes, and the scrollbar gets that class's variant. */
  lemma AppliedClassMapped(css: map<string, string>, clearance: string)
    ensures clearance in css ==> AppliedClass(css, clearance) in css.Values
    ensures clearance in css ==> SbClass(AppliedClass(css, clearance)) in SbVariants(css)
    ensures clearance !in css ==> AppliedClass(css, clearance) == "undefined"
  {
  }

  /** The window's classes afterwards: every mapped class removed, the clearance's class added. */
  function WindowAfter(classes: set<string>, css: map<string, string>, clearance: string): (r: set<string>)
    ensures AppliedClass(css, clearance) in r
    ensures forall v :: v in css.Values && v != AppliedClass(css, clearance) ==> v !in r
    ensures forall c :: c !in css.Values && c != AppliedClass(css, clearance) ==> (c in r <==> c in classes)
  {
    (classes - css.Values) + {AppliedClass(css, clearance)}
  }

  /** The scrollbar's classes afterwards: every mapped `_sb` class removed, the clearance's `_sb` class added. */
  function ScrollbarAfter(classes: set<string>, css: map<string, string>, clearance: string): (r: set<string>)
    ensures SbClass(AppliedClass(css, clearance)) in r
    ensures forall v :: v in css.Values && SbClass(v) != SbClass(AppliedClass(css, clearance)) ==> SbClass(v) !in r
    ensures forall c :: c !in SbVariants(css) && c != SbClass(AppliedClass(css, clearance)) ==> (c in r <==> c in classes)
  {
    (classes - SbVariants(css)) + {SbClass(AppliedClass(css, clearance))}
  }

  /** Applying the same clearance twice leaves the window's classes as applying it once. */
  lemma WindowAfterIdempotent(classes: set<string>, css: map<string, string>, clearance: string)
    ensures WindowAfter(WindowAfter(classes, css, clearance), css, clearance) == WindowAfter(classes, css, clearance)
  {
  }

  /** Applying the same clearance twice leaves the scrollbar's classes as applying it once. */
  lemma ScrollbarAfterIdempotent(classes: set<string>, css: map<string, string>, clearance: string)
    ensures ScrollbarAfter(ScrollbarAfter(classes, css, clearance), css, clearance) == ScrollbarAfter(classes, css, clearance)
  {
  }

  /** Switching clearance forgets the previous one: the result depends on the old classes only outside the mapping. */
  lemma WindowAfterForgetsMapped(a: set<string>, b: set<string>, css: map<string, string>, clearance: string)
    requires a - css.Values == b - css.Values
    ensures WindowAfter(a, css, clearance) == WindowAfter(b, css, clearance)
  {
  }
}
