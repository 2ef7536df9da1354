/** The section dropdown: scoped by a vocabulary id, searched by its own name
    and by its vocabulary's name and type, labelled
    "name [vocabulary name - vocabulary type]". */
module SectionSelect {
  import opened Wrappers
  import Text
  import Api
  import Selector

  datatype VocabularyRef = VocabularyRef(id: string, name: string, vocabType: string)
  datatype Section = Section(id: string, name: string, vocabulary: VocabularyRef)

  function SectionConfig(): Selector.Config<Section> {
    Selector.Config(
      (s: Section) => s.id,
      (s: Section) => [s.name, s.vocabulary.name, s.vocabulary.vocabType],
      (s: Section) => s.name + " [" + s.vocabulary.name + " - " + s.vocabulary.vocabType + "]",
      "All sections",
      "Select section",
      "Failed to fetch sections.",
      Some("vocabulary"))
  }

  /** An option is kept exactly when its name, its vocabulary's name or its
      vocabulary's type contains the term, ignoring ASCII case. */
  lemma MatchesThreeFields(s: Section, term: string)
    ensures Selector.Matches(SectionConfig(), s, term) <==>
      || Text.Includes(Text.Lower(s.name), Text.Lower(term))
      || Text.Includes(Text.Lower(s.vocabulary.name), Text.Lower(term))
      || Text.Includes(Text.Lower(s.vocabulary.vocabType), Text.Lower(term))
  {
    var cfg := SectionConfig();
    var t := Text.Lower(term);
    var fields := cfg.searchFields(s);
    assert fields == [s.name, s.vocabulary.name, s.vocabulary.vocabType];
    if Selector.Matches(cfg, s, term) {
      var i :| 0 <= i < |fields| && Text.Includes(Text.Lower(fields[i]), t);
      assert i == 0 || i == 1 || i == 2;
    }
    if Text.Includes(Text.Lower(s.name), t) {
      assert Text.Includes(Text.Lower(fields[0]), t);
    }
    if Text.Includes(Text.Lower(s.vocabulary.name), t) {
      assert Text.Includes(Text.Lower(fields[1]), t);
    }
    if Text.Includes(Text.Lower(s.vocabulary.vocabType), t) {
      assert Text.Includes(Text.Lower(fields[2]), t);
    }
  }

  // The lemmas from here on read off this page's configuration: they record
  // how it differs from the other pages and hold by unfolding the shared
  // definitions, so most need no proof steps.

  /** The request carries `vocabulary=<id>` only for a non-empty id, and the
      load runs again whenever the vocabulary id changes. */
  lemma LoadIsScopedByVocabulary(before: string, after: string)
    ensures Selector.LoadQuery(SectionConfig(), after) == if after != "" then [("vocabulary", after)] else []
    ensures Selector.ReloadsOn(SectionConfig(), before, after) <==> before != after
  {
  }

  lemma LabelText(includeAllOption: bool, value: string, options: seq<Section>)
    ensures includeAllOption && value == "" ==>
      Selector.SelectedLabel(SectionConfig(), includeAllOption, value, options) == "All sections"
    ensures !(includeAllOption && value == "") && (forall j :: 0 <= j < |options| ==> options[j].id != value) ==>
      Selector.SelectedLabel(SectionConfig(), includeAllOption, value, options) == "Select section"
    ensures forall j :: (0 <= j < |options| && options[j].id == value
                        && (forall k :: 0 <= k < j ==> options[k].id != value)
                        && !(includeAllOption && value == ""))
                        ==> Selector.SelectedLabel(SectionConfig(), includeAllOption, value, options)
                            == options[j].name + " [" + options[j].vocabulary.name + " - " + options[j].vocabulary.vocabType + "]"
  {
  }

  lemma FailureTexts(message: Option<string>)
    ensures Api.FailureText<seq<Section>>(Api.ApiFail(message), SectionConfig().fetchFailure, Selector.NetworkError)
      == Api.MessageOr(message, "Failed to fetch sections.")
    ensures Api.FailureText<seq<Section>>(Api.NetworkFail, SectionConfig().fetchFailure, Selector.NetworkError)
      == "Network error"
  {
  }

  /** An example of `LoadIsScopedByVocabulary` and
      `Selector.SearchableSelect.Body`, which prove the general case: choosing
      vocabulary "v1" asks for `vocabulary=v1`, and an empty answer leaves the
      dropdown reading "No results found". */
  method EmptySectionsForVocabulary() returns (query: seq<(string, string)>, body: Api.Body<Section>)
    ensures query == [("vocabulary", "v1")]
    ensures body == Api.NoResults("No results found")
  {
    var s := new Selector.SearchableSelect(SectionConfig(), false);
    query := s.StartLoad("v1");
    s.FinishLoad(Api.Success([]));
    body := s.Body();
  }
}
