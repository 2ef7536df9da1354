/** The searchable selector shared by the vocabulary, section and category
    dropdowns: it loads its options once per scope, filters them locally by a
    search term, shows a label for the controlled value and reports the
    user's pick to its owner. The three dropdowns differ only in the data
    collected in `Config`. */
module Selector {
  import opened Wrappers
  import Seqs
  import Text
  import Api

  /** What distinguishes one dropdown from another. */
  datatype Config<-T> = Config(
    idOf: T -> string,             // the option's `_id`
    searchFields: T -> seq<string>, // the fields the search term is matched against
    display: T -> string,          // the label of a selected option
    allLabel: string,              // the label of the "All" entry
    placeholder: string,           // the label when nothing matches the value
    fetchFailure: string,          // the error when the server sends no message
    scopeKey: Option<string>)      // the query key of the parent scope, if any

  const NetworkError: string := "Network error"
  const EmptyText: string := "No results found"

  /** Some search field of `o`, lowercased, contains the lowercased term. */
  predicate Matches<T>(cfg: Config<T>, o: T, term: string) {
    exists i :: 0 <= i < |cfg.searchFields(o)|
      && Text.Includes(Text.Lower(cfg.searchFields(o)[i]), Text.Lower(term))
  }

  /** The filter effect: all options for an empty term, otherwise the options
      that match it, in their loaded order. */
  function Visible<T>(cfg: Config<T>, options: seq<T>, term: string): (r: seq<T>)
    ensures |r| <= |options|
    ensures forall i :: 0 <= i < |r| ==> r[i] in options && (Matches(cfg, r[i], term) || |cfg.searchFields(r[i])| == 0)
    ensures forall i :: 0 <= i < |options| && Matches(cfg, options[i], term) ==> options[i] in r
  {
    if term == "" then
      assert forall i :: 0 <= i < |options| ==> Matches(cfg, options[i], term) || |cfg.searchFields(options[i])| == 0 by {
        forall i | 0 <= i < |options| && |cfg.searchFields(options[i])| > 0
          ensures Matches(cfg, options[i], term)
        {
          EmptyTermMatches(cfg, options[i]);
        }
      }
      options
    else Seqs.Filter(options, (o: T) => Matches(cfg, o, term))
  }

  /** The empty term matches every option that has a search field at all. */
  lemma EmptyTermMatches<T>(cfg: Config<T>, o: T)
    requires |cfg.searchFields(o)| > 0
    ensures Matches(cfg, o, "")
  {
    assert Text.OccursAt(Text.Lower(cfg.searchFields(o)[0]), Text.Lower(""), 0);
  }

  /** The empty-term shortcut changes nothing: for every term the visible list
      is the order-preserving filter of the options by `Matches`. */
  lemma VisibleIsFilter<T>(cfg: Config<T>, options: seq<T>, term: string)
    requires forall i :: 0 <= i < |options| ==> |cfg.searchFields(options[i])| > 0
    ensures Visible(cfg, options, term) == Seqs.Filter(options, (o: T) => Matches(cfg, o, term))
  {
    if term == "" {
      forall i | 0 <= i < |options| ensures Matches(cfg, options[i], term) {
        EmptyTermMatches(cfg, options[i]);
      }
      Seqs.FilterKeepsAll(options, (o: T) => Matches(cfg, o, term));
    }
  }

  /** The search is case-insensitive: two terms that lowercase alike show the
      same options. */
  lemma SearchIgnoresCase<T>(cfg: Config<T>, options: seq<T>, t1: string, t2: string)
    requires Text.Lower(t1) == Text.Lower(t2)
    ensures Visible(cfg, options, t1) == Visible(cfg, options, t2)
  {
    assert |t1| == |Text.Lower(t1)|;
    if t1 != "" {
      Seqs.FilterCongruent(options, (o: T) => Matches(cfg, o, t1), (o: T) => Matches(cfg, o, t2));
    }
  }

  /** `options.find((opt) => opt._id === value)`: the index of the first
      option whose id is `value`. */
  function FindIndex<T>(cfg: Config<T>, options: seq<T>, value: string): (r: Option<nat>)
    ensures r.Some? ==> r.value < |options| && cfg.idOf(options[r.value]) == value
    ensures r.Some? ==> forall j :: 0 <= j < r.value ==> cfg.idOf(options[j]) != value
    ensures r.None? ==> forall j :: 0 <= j < |options| ==> cfg.idOf(options[j]) != value
  {
    if options == [] then None
    else if cfg.idOf(options[0]) == value then Some(0)
    else match FindIndex(cfg, options[1..], value)
      case None => None
      case Some(k) => Some(k + 1)
  }

  /** The header text: the "All" label for the empty value when "All" is
      offered, else the label of the first loaded option with that id, else
      the placeholder. The lookup is in all loaded options, not only the
      visible ones. */
  function SelectedLabel<T>(cfg: Config<T>, includeAllOption: bool, value: string, options: seq<T>): (r: string)
    ensures includeAllOption && value == "" ==> r == cfg.allLabel
    ensures !(includeAllOption && value == "") && (forall j :: 0 <= j < |options| ==> cfg.idOf(options[j]) != value)
      ==> r == cfg.placeholder
    ensures forall j :: (0 <= j < |options| && cfg.idOf(options[j]) == value
                        && (forall k :: 0 <= k < j ==> cfg.idOf(options[k]) != value)
                        && !(includeAllOption && value == ""))
                        ==> r == cfg.display(options[j])
  {
    if includeAllOption && value == "" then cfg.allLabel
    else match FindIndex(cfg, options, value)
      case Some(j) => cfg.display(options[j])
      case None => cfg.placeholder
  }

  /** The query of the load request: the scope parameter only when the
      dropdown has a scope and its id is non-empty. */
  function LoadQuery<T>(cfg: Config<T>, scopeId: string): (q: seq<(string, string)>)
    ensures |q| <= 1
    ensures q != [] <==> cfg.scopeKey.Some? && scopeId != ""
    ensures q != [] ==> q[0] == (cfg.scopeKey.value, scopeId)
  {
    match cfg.scopeKey
    case Some(key) => if scopeId != "" then [(key, scopeId)] else []
    case None => []
  }

  /** Whether the load effect runs again when the scope prop changes: only a
      scoped dropdown lists the scope among the effect's dependencies. */
  predicate ReloadsOn<T>(cfg: Config<T>, before: string, after: string) {
    cfg.scopeKey.Some? && before != after
  }

  class SearchableSelect<T> {
    const cfg: Config<T>
    const includeAllOption: bool
    var options: seq<T>
    var filteredOptions: seq<T>
    var searchTerm: string
    var showDropdown: bool
    var loading: bool
    var error: string

    /** After the filter effect has run, the visible list is always the
        filter of the loaded options by the current term. */
    ghost predicate Valid()
      reads this
    {
      filteredOptions == Visible(cfg, options, searchTerm)
    }

    constructor (cfg: Config<T>, includeAllOption: bool)
      ensures Valid()
      ensures this.cfg == cfg && this.includeAllOption == includeAllOption
      ensures options == [] && filteredOptions == [] && searchTerm == ""
      ensures !showDropdown && !loading && error == ""
    {
      this.cfg := cfg;
      this.includeAllOption := includeAllOption;
      options := [];
      filteredOptions := [];
      searchTerm := "";
      showDropdown := false;
      loading := false;
      error := "";
    }

    /** The start of the load effect; returns the request's query. */
    method StartLoad(scopeId: string) returns (query: seq<(string, string)>)
      requires Valid()
      modifies this
      ensures Valid() && loading
      ensures query == LoadQuery(cfg, scopeId)
      ensures options == old(options) && filteredOptions == old(filteredOptions)
      ensures searchTerm == old(searchTerm) && showDropdown == old(showDropdown) && error == old(error)
    {
      loading := true;
      query := [];
      if cfg.scopeKey.Some? && scopeId != "" {
        query := query + [(cfg.scopeKey.value, scopeId)];
      }
    }

    /** The end of the load effect. A success replaces the options (and, by
        the filter effect, the visible list) but leaves `error` as it was; a
        failure records the error and keeps the last options. */
    method FinishLoad(outcome: Api.Outcome<seq<T>>)
      requires Valid()
      modifies this
      ensures Valid() && !loading
      ensures outcome.Success? ==> options == outcome.data && error == old(error)
      ensures outcome.Success? ==> filteredOptions == Visible(cfg, outcome.data, searchTerm)
      ensures !outcome.Success? ==> options == old(options) && filteredOptions == old(filteredOptions)
      ensures !outcome.Success? ==> error == Api.FailureText(outcome, cfg.fetchFailure, NetworkError)
      ensures searchTerm == old(searchTerm) && showDropdown == old(showDropdown)
    {
      if outcome.Success? {
        options := outcome.data;
        filteredOptions := outcome.data;
        // the filter effect, triggered by the change of `options`
        filteredOptions := Visible(cfg, options, searchTerm);
      } else if outcome.ApiFail? {
        error := Api.MessageOr(outcome.message, cfg.fetchFailure);
      } else {
        error := NetworkError;
      }
      loading := false;
    }

    /** Typing into the search box of the open dropdown. */
    method TypeTerm(term: string)
      requires Valid() && showDropdown
      modifies this
      ensures Valid() && searchTerm == term
      ensures filteredOptions == Visible(cfg, options, term)
      ensures options == old(options) && showDropdown == old(showDropdown)
      ensures loading == old(loading) && error == old(error)
    {
      searchTerm := term;
      filteredOptions := Visible(cfg, options, searchTerm);
    }

    /** A click on the header. */
    method Toggle()
      requires Valid()
      modifies this
      ensures Valid() && showDropdown == !old(showDropdown)
      ensures options == old(options) && filteredOptions == old(filteredOptions) && searchTerm == old(searchTerm)
      ensures loading == old(loading) && error == old(error)
    {
      showDropdown := !showDropdown;
    }

    /** A mouse-down outside the component. */
    method ClickOutside()
      requires Valid()
      modifies this
      ensures Valid() && !showDropdown
      ensures options == old(options) && filteredOptions == old(filteredOptions) && searchTerm == old(searchTerm)
      ensures loading == old(loading) && error == old(error)
    {
      showDropdown := false;
    }

    /** A click on a listed option: its id goes to the owner, the dropdown
        closes and the search term is cleared. Options are listed only in
        the open dropdown, when it is neither loading nor showing an error. */
    method Pick(o: T) returns (emitted: string)
      requires Valid() && showDropdown && !loading && error == "" && o in filteredOptions
      modifies this
      ensures Valid() && emitted == cfg.idOf(o)
      ensures !showDropdown && searchTerm == "" && filteredOptions == Visible(cfg, options, "")
      ensures options == old(options) && loading == old(loading) && error == old(error)
    {
      emitted := cfg.idOf(o);
      showDropdown := false;
      searchTerm := "";
      filteredOptions := Visible(cfg, options, searchTerm);
    }

    /** A click on the "All" entry: `""` goes to the owner and the dropdown
        closes; the search term is left as it was. */
    method PickAll() returns (emitted: string)
      requires Valid() && showDropdown && includeAllOption
      modifies this
      ensures Valid() && emitted == "" && !showDropdown
      ensures searchTerm == old(searchTerm) && filteredOptions == old(filteredOptions)
      ensures options == old(options) && loading == old(loading) && error == old(error)
    {
      emitted := "";
      showDropdown := false;
    }

    function Label(value: string): (r: string)
      reads this
      ensures includeAllOption && value == "" ==> r == cfg.allLabel
      ensures r == SelectedLabel(cfg, includeAllOption, value, options)
    {
      SelectedLabel(cfg, includeAllOption, value, options)
    }

    function Body(): (b: Api.Body<T>)
      reads this
      ensures error != "" && !loading ==> b == Api.ErrorText(error)
      ensures b == Api.BodyOf(loading, error, filteredOptions, EmptyText)
    {
      Api.BodyOf(loading, error, filteredOptions, EmptyText)
    }
  }

  /** Nothing resets `error`: once a load has failed, a later successful load
      replaces the options but the dropdown keeps showing the error. */
  method FailThenSucceed<T>(s: SearchableSelect<T>, failure: Api.Outcome<seq<T>>, data: seq<T>)
    requires s.Valid() && !failure.Success?
    requires s.cfg.fetchFailure != ""
    modifies s
    ensures s.Valid() && s.options == data
    ensures s.error == Api.FailureText(failure, s.cfg.fetchFailure, NetworkError) && s.error != ""
    ensures s.Body() == Api.ErrorText(s.error)
  {
    s.FinishLoad(failure);
    s.FinishLoad(Api.Success(data));
  }
}
