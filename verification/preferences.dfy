/**
 * The cookie-consent record shared by the consent banner and the settings
 * panel, and the browser's local storage in which both keep it.
 */
module Preferences {
  import opened JsValues

  /** The four cookie categories; `Necessary` cannot be switched off. */
  datatype Category = Necessary | Analytics | Marketing | Functional

  /** `CookiePreferences`: one consent flag per category. */
  datatype Prefs = Prefs(necessary: bool, analytics: bool, marketing: bool, functional: bool)
  {
    /** `prefs[key]` */
    function Get(k: Category): bool {
      match k
      case Necessary => necessary
      case Analytics => analytics
      case Marketing => marketing
      case Functional => functional
    }
  }

  /** The record both components start from, and the one a reset restores. */
  const Defaults := Prefs(true, false, false, false)

  /** What "Accept All" records. */
  const AllAccepted := Prefs(true, true, true, true)

  /** What "Necessary Only" records. */
  const NecessaryOnly := Prefs(true, false, false, false)

  /**
   * `{ ...prev, [key]: !prev[key] }`: the record with the flag of one
   * category negated and the three others as they were.
   */
  function Flipped(p: Prefs, k: Category): (r: Prefs)
    ensures r.Get(k) == !p.Get(k)
    ensures forall j :: j != k ==> r.Get(j) == p.Get(j)
  {
    match k
    case Necessary => p.(necessary := !p.necessary)
    case Analytics => p.(analytics := !p.analytics)
    case Marketing => p.(marketing := !p.marketing)
    case Functional => p.(functional := !p.functional)
  }

  /** Two records that agree on every category are the same record. */
  lemma SameFlagsSamePrefs(p: Prefs, q: Prefs)
    requires forall k :: p.Get(k) == q.Get(k)
    ensures p == q
  {
    assert p.Get(Necessary) == q.Get(Necessary);
    assert p.Get(Analytics) == q.Get(Analytics);
    assert p.Get(Marketing) == q.Get(Marketing);
    assert p.Get(Functional) == q.Get(Functional);
  }

  /** Flipping the same category twice gives back the original record. */
  lemma FlippedTwice(p: Prefs, k: Category)
    ensures Flipped(Flipped(p, k), k) == p
  {
    var q := Flipped(Flipped(p, k), k);
    forall j ensures q.Get(j) == p.Get(j) {
      if j != k {
        assert Flipped(p, k).Get(j) == p.Get(j);
      }
    }
    SameFlagsSamePrefs(q, p);
  }

  /** Flipping two categories commutes. */
  lemma FlippedCommutes(p: Prefs, k: Category, l: Category)
    ensures Flipped(Flipped(p, k), l) == Flipped(Flipped(p, l), k)
  {
    // one case per first category; the second is left to the solver
    match k
    case Necessary =>
    case Analytics =>
    case Marketing =>
    case Functional =>
  }

  // ----- local storage -----

  /** The key of the consent record and the key of the time it was given. */
  const ConsentKey := "cookies-consent"
  const ConsentDateKey := "cookies-consent-date"

  /**
   * A stored value: a consent record, or an ISO-8601 time stamp. The JSON
   * text the browser actually stores is not modelled.
   */
  datatype Entry = ConsentRecord(prefs: Prefs) | Timestamp(iso: string)

  /** The stored consent, if a consent record is stored. */
  function StoredConsent(items: map<string, Entry>): Option<Prefs> {
    if ConsentKey in items && items[ConsentKey].ConsentRecord? then Some(items[ConsentKey].prefs) else None
  }

  /** A stored consent, when there is one, keeps necessary cookies on. */
  predicate StoreSound(items: map<string, Entry>) {
    StoredConsent(items).Some? ==> StoredConsent(items).value.necessary
  }

  /** `window.localStorage`, one object shared by every component of a page. */
  class Store {
    var items: map<string, Entry>

    constructor (initial: map<string, Entry>)
      ensures items == initial
    {
      items := initial;
    }

    /** `getItem(key)`: the stored value, or `null` as `None`. */
    method GetItem(key: string) returns (v: Option<Entry>)
      ensures v.Some? <==> key in items
      ensures v.Some? ==> v.value == items[key]
    {
      v := if key in items then Some(items[key]) else None;
    }

    /** `setItem(key, value)` */
    method SetItem(key: string, value: Entry)
      modifies this
      ensures items == old(items)[key := value]
    {
      items := items[key := value];
    }

    /** `removeItem(key)`: removing a missing key changes nothing. */
    method RemoveItem(key: string)
      modifies this
      ensures items == old(items) - {key}
      ensures key !in old(items) ==> items == old(items)
    {
      items := items - {key};
    }
  }
}
