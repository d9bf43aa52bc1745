/**
 * The season applicator, class `QuattroStagioni` (src/index.js:12-93): it
 * classifies a date for its location and swaps the season label on a target
 * element's class list, remembering the label it applied last.
 *
 * The DOM is reduced to what the class touches: an element's class list is a
 * set of tokens, and every `remove`/`add` call on it is also recorded, so
 * that the call sequence is part of the observable state. The document's
 * first body element (`getBody`, src/index.js:164-168) is passed in as
 * `body` by every operation that may consult it.
 */
module Applicator {
  import opened Wrappers
  import opened Seasons

  /** One call on an element's `classList`. */
  datatype TokenCall = Removed(token: string) | Added(token: string)

  /** A target element: its class tokens and the calls made on its class list. */
  class Element {
    var classList: set<string>
    var calls: seq<TokenCall>

    constructor (classes: set<string>)
      ensures classList == classes && calls == []
    {
      classList := classes;
      calls := [];
    }

    /** `classList.remove(token)`: the token is absent afterwards. */
    method Remove(token: string)
      modifies this
      ensures classList == old(classList) - {token}
      ensures calls == old(calls) + [Removed(token)]
    {
      classList := classList - {token};
      calls := calls + [Removed(token)];
    }

    /** `classList.add(token)`: the token is present afterwards, once (it is a set). */
    method Add(token: string)
      modifies this
      ensures classList == old(classList) + {token}
      ensures calls == old(calls) + [Added(token)]
    {
      classList := classList + {token};
      calls := calls + [Added(token)];
    }
  }

  /**
   * The `_el` slot: never set (`undefined`), a function producing the element
   * on demand, or the element itself.
   */
  datatype ElSlot = Unset | Producer(produce: () -> Option<Element>) | Direct(element: Element)

  /** What one read of the `el` getter returns, given the slot and the document's body. */
  function Resolve(slot: ElSlot, body: Option<Element>): Option<Element> {
    match slot
    case Unset => body
    case Producer(produce) => produce()
    case Direct(element) => Some(element)
  }

  /** What the getter stores back into `_el`: the resolved element, or `undefined`. */
  function Cache(resolved: Option<Element>): ElSlot {
    match resolved
    case Some(element) => Direct(element)
    case None => Unset
  }

  /**
   * Once a get has resolved an element, every later get returns that same
   * element and consults neither the producer nor the document; a get that
   * resolved nothing leaves the next get to consult the document.
   */
  lemma ResolutionIsCached(slot: ElSlot, body: Option<Element>, laterBody: Option<Element>)
    ensures Resolve(slot, body).Some? ==>
      Cache(Resolve(slot, body)).Direct? && Resolve(Cache(Resolve(slot, body)), laterBody) == Resolve(slot, body)
    ensures Resolve(slot, body).None? ==> Resolve(Cache(Resolve(slot, body)), laterBody) == laterBody
  {
  }

  /**
   * The element `update` works on: it reads the getter twice (once for the
   * log line, once for `classList`), so the second read sees the first's cache.
   */
  function UpdateTarget(slot: ElSlot, body: Option<Element>): (r: Option<Element>)
    ensures r == (if Resolve(slot, body).Some? then Resolve(slot, body) else body)
  {
    Resolve(Cache(Resolve(slot, body)), body)
  }

  /** The set of elements an `Option<Element>` holds, for frame clauses. */
  function Elements(target: Option<Element>): set<Element> {
    match target
    case Some(element) => {element}
    case None => {}
  }

  /**
   * The class-list token a computed season becomes: DOMTokenList converts an
   * `undefined` season (an invalid date) to the string "undefined".
   */
  function Token(season: Option<string>): string {
    match season
    case Some(name) => name
    case None => "undefined"
  }

  /**
   * For a valid date the label `update` applies is one of the convention's
   * bare season names: no prefix is ever added to it.
   */
  lemma AppliedLabelIsBareSeason(loc: Location, monthIndex: int)
    requires 0 <= monthIndex <= 11
    ensures Token(loc.Season(monthIndex + 1)) in loc.Vocabulary()
  {
  }

  /**
   * The class list after `update` removes the last applied label (if any) and
   * adds `applied`: that label is present, a different previous label is gone,
   * and every other token is as it was.
   */
  function ApplyLabel(classes: set<string>, last: Option<string>, applied: string): (r: set<string>)
    ensures applied in r
    ensures last.Some? && last.value != applied ==> last.value !in r
    ensures forall t :: t != applied && last != Some(t) ==> (t in r <==> t in classes)
  {
    (if last.Some? then classes - {last.value} else classes) + {applied}
  }

  /** The class-list calls `update` issues: remove the last label if any, then add. */
  function SwapCalls(last: Option<string>, applied: string): seq<TokenCall> {
    (if last.Some? then [Removed(last.value)] else []) + [Added(applied)]
  }

  /**
   * Two updates in the same season leave the same class list as one; the
   * second still issues its remove-then-add pair of calls.
   */
  lemma ApplyLabelIdempotent(classes: set<string>, last: Option<string>, applied: string)
    ensures ApplyLabel(ApplyLabel(classes, last, applied), Some(applied), applied) == ApplyLabel(classes, last, applied)
    ensures SwapCalls(Some(applied), applied) == [Removed(applied), Added(applied)]
  {
  }

  /**
   * Two updates in different seasons: the first label is gone, the second is
   * present, and no other token changed.
   */
  lemma ApplyLabelTransition(classes: set<string>, last: Option<string>, first: string, second: string)
    requires first != second
    ensures var after := ApplyLabel(ApplyLabel(classes, last, first), Some(first), second);
      && first !in after && second in after
      && forall t :: t != first && t != second && last != Some(t) ==> (t in after <==> t in classes)
  {
  }

  /** How an `update` call ends: normally, or with a TypeError when there is no target element. */
  datatype Completion = Returned | ThrewTypeError

  class QuattroStagioni {
    /** `_location`: set once by the constructor. */
    const location: Location
    /** `_el`: the target element, resolved lazily. */
    var el: ElSlot
    var lastAppliedSeason: Option<string>

    /**
     * A new instance: the location defaults to the northern hemisphere, no
     * season has been applied, and no element is set. The prefix is accepted
     * and, as in the source, never stored or used.
     */
    constructor (location: Location := NorthernHemisphere, classNamePrefix: string := "")
      ensures this.location == location
      ensures el == Unset && lastAppliedSeason == None
    {
      this.location := location;
      el := Unset;
      lastAppliedSeason := None;
    }

    /** The `el` setter: stores a direct element or a producer without evaluating it. */
    method SetEl(value: ElSlot)
      modifies this`el
      ensures el == value
    {
      el := value;
    }

    /**
     * The `el` getter: an unset slot resolves to the document's body, a
     * producer is invoked, a direct element is returned; the result is
     * cached in the slot.
     */
    method El(body: Option<Element>) returns (target: Option<Element>)
      modifies this`el
      ensures target == Resolve(old(el), body)
      ensures el == Cache(target)
      ensures old(el).Direct? ==> el == old(el)
    {
      match el {
        case Unset =>
          target := body;
        case Producer(produce) =>
          target := produce();
        case Direct(element) =>
          target := Some(element);
      }
      el := Cache(target);
    }

    /**
     * The season for a JavaScript month index (`getMonth()`, 0..11): the
     * location's season of the 1-based month; any other index yields none.
     * Nothing changes.
     */
    method MeteorologicalSeason(monthIndex: int) returns (season: Option<string>)
      ensures season.Some? <==> 0 <= monthIndex <= 11
      ensures season == location.Season(monthIndex + 1)
    {
      var month := monthIndex + 1;
      season := location.Season(month);
    }

    /**
     * Classifies the month, resolves the target element, removes the last
     * applied label and adds the new one. Without a target element it throws
     * before touching any class list, and only the slot's cache has changed.
     */
    method Update(monthIndex: int, body: Option<Element>) returns (completion: Completion)
      modifies this`el, this`lastAppliedSeason, Elements(UpdateTarget(el, body))
      ensures el == Cache(UpdateTarget(old(el), body))
      ensures completion == (if UpdateTarget(old(el), body).Some? then Returned else ThrewTypeError)
      ensures completion == ThrewTypeError ==> lastAppliedSeason == old(lastAppliedSeason)
      ensures completion == Returned ==>
        var target := UpdateTarget(old(el), body).value;
        var applied := Token(location.Season(monthIndex + 1));
        && lastAppliedSeason == Some(applied)
        && target.classList == ApplyLabel(old(target.classList), old(lastAppliedSeason), applied)
        && target.calls == old(target.calls) + SwapCalls(old(lastAppliedSeason), applied)
    {
      var season := MeteorologicalSeason(monthIndex);
      var logged := El(body);
      var target := El(body);
      assert target == UpdateTarget(old(el), body);
      if target.None? {
        return ThrewTypeError;
      }
      var element := target.value;
      if lastAppliedSeason.Some? {
        element.Remove(lastAppliedSeason.value);
      }
      var applied := Token(season);
      element.Add(applied);
      assert element.classList == ApplyLabel(old(element.classList), old(lastAppliedSeason), applied);
      lastAppliedSeason := Some(applied);
      completion := Returned;
    }
  }
}
