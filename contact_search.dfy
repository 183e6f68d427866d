/**
 * The contact-list screen's data logic: the search matching rule of
 * `fetchSearchResults` and the has-a-phone-number filter of
 * `checkContactList`, as functions of the lists they work on.
 */
module ContactSearch {
  import opened Wrappers
  import Js

  /** An entry of a contact's `phoneNumbers`; its `number` may be undefined. */
  datatype PhoneNumber = PhoneNumber(number: Option<string>)

  /** A device contact; `phoneNumbers` is undefined for a contact with none fetched. */
  datatype Contact = Contact(firstName: string, phoneNumbers: Option<seq<PhoneNumber>>)

  /** `s.replace("+60", "").replace(/ /g, "")`: the first "+60" dropped, then every space. */
  function Clean(s: string): (r: string)
    ensures ' ' !in r
    ensures !Js.Contains(s, "+60") ==> r == Js.RemoveAll(s, ' ')
    ensures var i := Js.IndexOf(s, "+60");
      i.Some? ==> r == Js.RemoveAll(s[..i.value] + s[i.value + 3..], ' ')
  {
    var stripped := Js.ReplaceFirst(s, "+60", "");
    assert Js.IndexOf(s, "+60").Some? ==> stripped == s[..Js.IndexOf(s, "+60").value] + s[Js.IndexOf(s, "+60").value + 3..];
    Js.RemoveAll(stripped, ' ')
  }

  /**
   * The callback given to `some`: the trimmed number contains the trimmed
   * term, or the trimmed cleaned term contains the cleaned number. An
   * undefined number fails the first test and, in the second,
   * `includes(undefined)` looks for the text "undefined".
   */
  predicate NumberMatches(n: PhoneNumber, term: string)
    ensures n.number.None? ==> (NumberMatches(n, term) <==> Js.Contains(Js.Trim(Clean(term)), "undefined"))
    ensures n.number.Some? && Js.Trim(term) == "" ==> NumberMatches(n, term)
    ensures n.number.Some? && Js.Trim(term) == Js.Trim(n.number.value) ==> NumberMatches(n, term)
  {
    assert n.number.Some? ==> Js.OccursAt(Js.Trim(n.number.value), "", 0);
    assert n.number.Some? ==> Js.OccursAt(Js.Trim(n.number.value), Js.Trim(n.number.value), 0);
    || (n.number.Some? && Js.Contains(Js.Trim(n.number.value), Js.Trim(term)))
    || Js.Contains(Js.Trim(Clean(term)), if n.number.Some? then Clean(n.number.value) else "undefined")
  }

  /** The callback given to `filter`: some phone number of the contact matches. */
  predicate ContactMatches(c: Contact, term: string)
    ensures c.phoneNumbers.None? || c.phoneNumbers == Some([]) ==> !ContactMatches(c, term)
    ensures forall i :: c.phoneNumbers.Some? && 0 <= i < |c.phoneNumbers.value| && NumberMatches(c.phoneNumbers.value[i], term) ==>
      ContactMatches(c, term)
  {
    c.phoneNumbers.Some? && exists i :: 0 <= i < |c.phoneNumbers.value| && NumberMatches(c.phoneNumbers.value[i], term)
  }

  /**
   * `fetchSearchResults(term)` on `listData`: the matching contacts in list
   * order, or nothing when a contact without `phoneNumbers` makes the
   * filter throw (the error is caught and the shown list is left as it was).
   */
  function SearchContacts(listData: seq<Contact>, term: string): (r: Option<seq<Contact>>)
    ensures r.None? <==> exists i :: 0 <= i < |listData| && listData[i].phoneNumbers.None?
    ensures r.Some? ==> Js.IsSubsequence(r.value, listData)
    ensures r.Some? ==> forall i :: 0 <= i < |r.value| ==> ContactMatches(r.value[i], term)
    ensures r.Some? ==> forall i :: 0 <= i < |listData| && ContactMatches(listData[i], term) ==> listData[i] in r.value
    ensures r.Some? ==> forall c :: multiset(r.value)[c] == if ContactMatches(c, term) then multiset(listData)[c] else 0
  {
    if exists i :: 0 <= i < |listData| && listData[i].phoneNumbers.None? then None
    else Some(Js.Filter(listData, (c: Contact) => ContactMatches(c, term)))
  }

  /** `item.phoneNumbers?.length > 0`. */
  predicate HasPhoneNumbers(c: Contact) {
    c.phoneNumbers.Some? && |c.phoneNumbers.value| > 0
  }

  /**
   * The list `checkContactList` leaves in `listData`: with permission
   * granted and a non-empty answer, the contacts that have a phone number;
   * otherwise the list it had.
   */
  function LoadedContacts(granted: bool, fetched: seq<Contact>, current: seq<Contact>): (r: seq<Contact>)
    ensures !granted || fetched == [] ==> r == current
    ensures granted && fetched != [] ==>
      && Js.IsSubsequence(r, fetched)
      && (forall i :: 0 <= i < |r| ==> HasPhoneNumbers(r[i]))
      && (forall i :: 0 <= i < |fetched| && HasPhoneNumbers(fetched[i]) ==> fetched[i] in r)
      && (forall c :: multiset(r)[c] == if HasPhoneNumbers(c) then multiset(fetched)[c] else 0)
  {
    if granted && |fetched| > 0 then Js.Filter(fetched, HasPhoneNumbers) else current
  }

  /** A subsequence keeps only elements of the original. */
  lemma {:induction false} SubsequenceElements<T>(r: seq<T>, s: seq<T>)
    requires Js.IsSubsequence(r, s)
    ensures forall i :: 0 <= i < |r| ==> r[i] in s
    decreases |s|
  {
    if r != [] && s != [] {
      if r[0] == s[0] && Js.IsSubsequence(r[1..], s[1..]) {
        SubsequenceElements(r[1..], s[1..]);
        forall i | 1 <= i < |r| ensures r[i] in s {
          assert r[1..][i - 1] == r[i];
          assert r[i] in s[1..];
        }
      } else {
        SubsequenceElements(r, s[1..]);
        forall i | 0 <= i < |r| ensures r[i] in s {
          assert r[i] in s[1..];
        }
      }
    }
  }

  /** Every contact a search returns is one of the list's. */
  lemma {:induction false} SearchResultsComeFromList(listData: seq<Contact>, term: string)
    requires SearchContacts(listData, term).Some?
    ensures forall i :: 0 <= i < |SearchContacts(listData, term).value| ==> SearchContacts(listData, term).value[i] in listData
  {
    SubsequenceElements(SearchContacts(listData, term).value, listData);
  }

  /**
   * Searching a list that was loaded from an empty one never throws:
   * every contact in it has phone numbers.
   */
  lemma SearchLoadedListSucceeds(granted: bool, fetched: seq<Contact>, term: string)
    ensures SearchContacts(LoadedContacts(granted, fetched, []), term).Some?
  {
  }

  /** With an empty term a contact is kept exactly when one of its numbers is defined. */
  lemma {:induction false} EmptyTermMatchesDefinedNumbers(c: Contact)
    requires c.phoneNumbers.Some?
    ensures ContactMatches(c, "") <==> exists i :: 0 <= i < |c.phoneNumbers.value| && c.phoneNumbers.value[i].number.Some?
  {
    var ns := c.phoneNumbers.value;
    assert Js.Trim("") == "";
    assert Clean("") == "" by { assert Js.ReplaceFirst("", "+60", "") == ""; }
    forall i | 0 <= i < |ns| && ns[i].number.Some? ensures NumberMatches(ns[i], "") {
      Js.ContainsEmpty(Js.Trim(ns[i].number.value));
    }
    forall i | 0 <= i < |ns| && ns[i].number.None? ensures !NumberMatches(ns[i], "") {
      if Js.Contains("", "undefined") { Js.ContainsLength("", "undefined"); }
    }
  }

  /** The empty term keeps every contact that has a defined number, in order. */
  lemma {:induction false} EmptyTermKeepsAll(listData: seq<Contact>)
    requires forall i :: 0 <= i < |listData| ==> listData[i].phoneNumbers.Some?
    requires forall i :: 0 <= i < |listData| ==>
      exists k :: 0 <= k < |listData[i].phoneNumbers.value| && listData[i].phoneNumbers.value[k].number.Some?
    ensures SearchContacts(listData, "") == Some(listData)
  {
    forall i | 0 <= i < |listData| ensures ContactMatches(listData[i], "") {
      EmptyTermMatchesDefinedNumbers(listData[i]);
    }
    Js.FilterKeepsAll(listData, (c: Contact) => ContactMatches(c, ""));
  }

  /**
   * The second test runs the other way: a number whose cleaned form is a
   * piece of the cleaned term matches, however much longer the term is.
   */
  lemma NumberInsideTermMatches(number: string, term: string)
    requires Js.Contains(Js.Trim(Clean(term)), Clean(number))
    ensures NumberMatches(PhoneNumber(Some(number)), term)
  {
  }

  /** Only the first "+60" is removed. */
  lemma OnlyFirstPrefixStripped()
    ensures Js.ReplaceFirst("+60+60", "+60", "") == "+60"
    ensures Js.ReplaceFirst("+60 12+60", "+60", "") == " 12+60"
  {
    assert Js.OccursAt("+60+60", "+60", 0);
    assert Js.OccursAt("+60 12+60", "+60", 0);
  }
}
