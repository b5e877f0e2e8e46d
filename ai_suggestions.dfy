/**
 * The AI suggestion dialog of the standalone composer. The webhook is called
 * with `mode: 'no-cors'`, so its reply is never read: the dialog always shows
 * suggestions generated locally from the text and the chosen improvement.
 * The three regular-expression rewrites the generator uses are inputs.
 */
module AISuggestions {
  import opened Wrappers
  import Text
  import Seqs

  /** The rewrites done with regular expressions: greetings to "cumprimento" (`/oi|olá|ei/gi`),
      intensifiers removed (`/\b(?:extremamente|muito|bastante)\b/gi`) and courtesy words
      removed (`/\b(?:por favor|gentilmente|cordialmente)\b/gi`). */
  datatype Rewrites = Rewrites(
    replaceGreetings: string -> string,
    dropIntensifiers: string -> string,
    dropCourtesies: string -> string)

  /** What the request outcome can be; the suggestions do not depend on it. */
  datatype RequestOutcome = Delivered | NetworkError

  datatype SuggestionRequest = SuggestionRequest(text: string, improvementType: string, timestamp: string)

  /** A call the dialog makes on its parent, by prop name. */
  datatype Callback = ApplySuggestion(suggestion: string) | CloseDialog

  /** The six improvement options the dialog offers, by id. */
  predicate IsKnownOption(option: string)
  {
    option in {"formal", "friendly", "simplify", "persuasive", "shorten", "expand"}
  }

  /** The branch of the generator's `switch` an option id selects; `Other` is its default. */
  datatype Improvement = Formal | Friendly | Simplify | Persuasive | Shorten | Expand | Other

  /** The `case` label an option id matches: each of the six ids its own, any other the default. */
  function ImprovementOf(option: string): (k: Improvement)
    ensures k == Other <==> !IsKnownOption(option)
  {
    if option == "formal" then Formal
    else if option == "friendly" then Friendly
    else if option == "simplify" then Simplify
    else if option == "persuasive" then Persuasive
    else if option == "shorten" then Shorten
    else if option == "expand" then Expand
    else Other
  }

  /** The three branches whose candidates are fixed phrases around the whole text. */
  predicate IsFraming(k: Improvement)
  {
    k == Friendly || k == Persuasive || k == Expand
  }

  /** The fixed phrases the generator puts around the text. */
  const FormalGreeting: string := "Prezado(a), "
  const FormalNotice: string := "Venho por meio desta comunicar que "
  const FormalInform: string := "Gostaríamos de informar que "
  const FriendlyHiOpen: string := "Oi! \U{1F60A} "
  const FriendlyHiClose: string := " Espero que você esteja bem!"
  const FriendlyHelloOpen: string := "Olá! "
  const FriendlyHelloClose: string := " Tenha um ótimo dia! \U{1F31F}"
  const FriendlyHeyOpen: string := "Ei! "
  const FriendlyHeyClose: string := " Qualquer dúvida, é só chamar! \U{1F609}"
  const PersuasiveUnique: string := " Esta é uma oportunidade única!"
  const PersuasiveChance: string := "Não perca esta chance: "
  const PersuasiveOffer: string := "Oferta especial para você: "
  const ExpandDetails: string := " Gostaria de compartilhar mais detalhes sobre isso com você."
  const ExpandUseful: string := " Esta informação pode ser muito útil para suas necessidades."
  const ExpandAvailable: string := " Estou à disposição para esclarecer qualquer dúvida adicional."

  function FormalCandidates(text: string, rw: Rewrites): (c: seq<string>)
    ensures |c| == 3
  {
    [ FormalGreeting + Text.ReplaceAllChar(rw.replaceGreetings(text), '!', '.'),
      FormalNotice + Text.Lower(text),
      FormalInform + Text.Lower(text) ]
  }

  function FriendlyCandidates(text: string): (c: seq<string>)
    ensures |c| == 3
  {
    [ FriendlyHiOpen + text + FriendlyHiClose,
      FriendlyHelloOpen + text + FriendlyHelloClose,
      FriendlyHeyOpen + text + FriendlyHeyClose ]
  }

  function SimplifyCandidates(text: string, rw: Rewrites): (c: seq<string>)
    ensures |c| == 3
  {
    [ Text.Split(text, '.')[0] + ".",
      Text.Trim(rw.dropIntensifiers(text)),
      Text.Join(Text.Take(Text.Split(text, ' '), 10), ' ') + "..." ]
  }

  function PersuasiveCandidates(text: string): (c: seq<string>)
    ensures |c| == 3
  {
    [ text + PersuasiveUnique, PersuasiveChance + text, PersuasiveOffer + text ]
  }

  function ShortenCandidates(text: string, rw: Rewrites): (c: seq<string>)
    ensures |c| == 3
  {
    [ Text.Join(Text.Take(Text.Split(text, ' '), 8), ' '),
      Text.Trim(rw.dropCourtesies(text)),
      Text.Split(text, '.')[0] ]
  }

  function ExpandCandidates(text: string): (c: seq<string>)
    ensures |c| == 3
  {
    [ text + ExpandDetails, text + ExpandUseful, text + ExpandAvailable ]
  }

  /** The candidates each branch pushes, before filtering: three for each of the six options,
      the text alone for the default. */
  function Candidates(text: string, k: Improvement, rw: Rewrites): (c: seq<string>)
    ensures |c| == if k == Other then 1 else 3
    ensures k == Other ==> c == [text]
    ensures k == Formal ==> c == FormalCandidates(text, rw)
    ensures k == Friendly ==> c == FriendlyCandidates(text)
    ensures k == Simplify ==> c == SimplifyCandidates(text, rw)
    ensures k == Persuasive ==> c == PersuasiveCandidates(text)
    ensures k == Shorten ==> c == ShortenCandidates(text, rw)
    ensures k == Expand ==> c == ExpandCandidates(text)
  {
    match k
    case Formal => FormalCandidates(text, rw)
    case Friendly => FriendlyCandidates(text)
    case Simplify => SimplifyCandidates(text, rw)
    case Persuasive => PersuasiveCandidates(text)
    case Shorten => ShortenCandidates(text, rw)
    case Expand => ExpandCandidates(text)
    case Other => [text]
  }

  /** `s && s.trim() !== text`: the candidate is non-empty and differs from the text once trimmed. */
  predicate IsUseful(text: string, s: string)
  {
    s != "" && Text.Trim(s) != text
  }

  function Useful(text: string): string -> bool
  {
    (s: string) => IsUseful(text, s)
  }

  /** `generateMockSuggestions(text, option)`: at most three suggestions, the useful candidates
      in the order they were pushed, one for every position holding a useful candidate, so
      a candidate pushed twice is offered twice. */
  function GenerateMockSuggestions(text: string, option: string, rw: Rewrites): (r: seq<string>)
    ensures |r| <= 3
    ensures forall s :: s in r <==> s in Candidates(text, ImprovementOf(option), rw) && IsUseful(text, s)
    ensures Seqs.IsSubsequence(r, Candidates(text, ImprovementOf(option), rw))
    ensures |r| == |Seqs.IndicesWhere(Useful(text), Candidates(text, ImprovementOf(option), rw))|
  {
    Seqs.FilterIsSubsequence(Useful(text), Candidates(text, ImprovementOf(option), rw));
    Seqs.FilterLengthCountsIndices(Useful(text), Candidates(text, ImprovementOf(option), rw));
    Seqs.Filter(Useful(text), Candidates(text, ImprovementOf(option), rw))
  }

  /** An unknown option offers the text itself, and only when trimming would change it. */
  lemma UnknownOptionOffersTextOnlyIfUntrimmed(text: string, option: string, rw: Rewrites)
    requires !IsKnownOption(option)
    ensures GenerateMockSuggestions(text, option, rw) ==
              if text != "" && Text.Trim(text) != text then [text] else []
  {
    assert Candidates(text, ImprovementOf(option), rw) == [text];
    assert Candidates(text, ImprovementOf(option), rw)[1..] == [];
  }

  /** A text framed by a phrase that starts (or ends) with a visible character on each side
      it occupies never trims back to the text. */
  lemma FramedDiffersFromText(before: string, text: string, after: string)
    requires before == [] || !Text.IsWhitespace(before[0])
    requires after == [] || !Text.IsWhitespace(after[|after| - 1])
    requires |before| + |after| > 0
    ensures Text.Trim(before + text + after) != text
  {
    if HasNoSurroundingWhitespace(text) {
      FramedTrimmedDiffers(before, text, after);
    } else {
      TrimHasNoSurroundingWhitespace(before + text + after);
    }
  }

  /** No trim has surrounding whitespace, so a text with some is nobody's trim. */
  lemma TrimHasNoSurroundingWhitespace(s: string)
    ensures HasNoSurroundingWhitespace(Text.Trim(s))
  {
    Text.TrimIsFactor(s);
  }

  /** The case of a text with no surrounding whitespace: the visible ends of the phrases
      are the ends of the framed string, so it is its own trim and longer than the text. */
  lemma FramedTrimmedDiffers(before: string, text: string, after: string)
    requires HasNoSurroundingWhitespace(text)
    requires before == [] || !Text.IsWhitespace(before[0])
    requires after == [] || !Text.IsWhitespace(after[|after| - 1])
    requires |before| + |after| > 0
    ensures Text.Trim(before + text + after) != text
  {
    var s := before + text + after;
    Text.TrimEmptyIffBlank(s);
    if before == [] && text == [] {
      assert s == after && !Text.IsWhitespace(s[|s| - 1]);
    } else if after == [] && text == [] {
      assert s == before && !Text.IsWhitespace(s[0]);
    } else {
      assert !Text.IsWhitespace(s[0]) by {
        if before == [] { assert s[0] == text[0]; }
      }
      assert !Text.IsWhitespace(s[|s| - 1]) by {
        if after == [] { assert s[|s| - 1] == text[|text| - 1]; }
      }
      Text.TrimOfTrimmed(s);
    }
  }

  /** A text with no leading or trailing whitespace. */
  predicate HasNoSurroundingWhitespace(text: string)
  {
    text == [] || (!Text.IsWhitespace(text[0]) && !Text.IsWhitespace(text[|text| - 1]))
  }

  /** A phrase put before a text gives a useful candidate. */
  lemma PrefixedIsUseful(before: string, text: string)
    requires before != [] && !Text.IsWhitespace(before[0])
    ensures IsUseful(text, before + text)
  {
    FramedDiffersFromText(before, text, "");
    assert before + text + "" == before + text;
  }

  /** A phrase put after a text gives a useful candidate. */
  lemma AppendedIsUseful(text: string, after: string)
    requires after != [] && !Text.IsWhitespace(after[|after| - 1])
    ensures IsUseful(text, text + after)
  {
    FramedDiffersFromText("", text, after);
    assert "" + text + after == text + after;
  }

  /** Phrases on both sides of a text give a useful candidate. */
  lemma EnclosedIsUseful(before: string, text: string, after: string)
    requires before != [] && !Text.IsWhitespace(before[0])
    requires after != [] && !Text.IsWhitespace(after[|after| - 1])
    ensures IsUseful(text, before + text + after)
  {
    FramedDiffersFromText(before, text, after);
  }

  lemma FriendlyAllUseful(text: string)
    ensures IsUseful(text, FriendlyCandidates(text)[0])
    ensures IsUseful(text, FriendlyCandidates(text)[1])
    ensures IsUseful(text, FriendlyCandidates(text)[2])
  {
    EnclosedIsUseful(FriendlyHiOpen, text, FriendlyHiClose);
    EnclosedIsUseful(FriendlyHelloOpen, text, FriendlyHelloClose);
    EnclosedIsUseful(FriendlyHeyOpen, text, FriendlyHeyClose);
  }

  lemma PersuasiveAllUseful(text: string)
    ensures IsUseful(text, PersuasiveCandidates(text)[0])
    ensures IsUseful(text, PersuasiveCandidates(text)[1])
    ensures IsUseful(text, PersuasiveCandidates(text)[2])
  {
    AppendedIsUseful(text, PersuasiveUnique);
    PrefixedIsUseful(PersuasiveChance, text);
    PrefixedIsUseful(PersuasiveOffer, text);
  }

  lemma ExpandAllUseful(text: string)
    ensures IsUseful(text, ExpandCandidates(text)[0])
    ensures IsUseful(text, ExpandCandidates(text)[1])
    ensures IsUseful(text, ExpandCandidates(text)[2])
  {
    AppendedIsUseful(text, ExpandDetails);
    AppendedIsUseful(text, ExpandUseful);
    AppendedIsUseful(text, ExpandAvailable);
  }

  /** Every candidate passes the filter, so the filter keeps the three of them. */
  lemma KeepsAllThree(text: string, c: seq<string>)
    requires |c| == 3 && IsUseful(text, c[0]) && IsUseful(text, c[1]) && IsUseful(text, c[2])
    ensures Seqs.Filter(Useful(text), c) == c
  {
    assert forall i :: 0 <= i < |c| ==> Useful(text)(c[i]) by {
      forall i | 0 <= i < |c| ensures Useful(text)(c[i]) {
        assert i == 0 || i == 1 || i == 2;
      }
    }
    Seqs.FilterKeepsAll(Useful(text), c);
  }

  /** For any text, untrimmed as the dialog passes it, the friendly, persuasive and expand
      options keep all three of their phrases. */
  lemma FramingOptionsKeepAllThree(text: string, option: string, rw: Rewrites)
    requires IsFraming(ImprovementOf(option))
    ensures GenerateMockSuggestions(text, option, rw) == Candidates(text, ImprovementOf(option), rw)
    ensures |GenerateMockSuggestions(text, option, rw)| == 3
  {
    var k := ImprovementOf(option);
    var c := Candidates(text, k, rw);
    if k == Friendly {
      FriendlyAllUseful(text);
    } else if k == Persuasive {
      PersuasiveAllUseful(text);
    } else {
      ExpandAllUseful(text);
    }
    KeepsAllThree(text, c);
  }

  /** Cutting a text to its first `k` space-separated words gives at most `k` space-free
      words whose join is a prefix of the text. */
  lemma {:induction false} FirstWordsArePrefix(text: string, k: nat)
    ensures var words := Text.Take(Text.Split(text, ' '), k);
              && |words| <= k && (forall j :: 0 <= j < |words| ==> ' ' !in words[j])
              && Text.StartsWith(text, Text.Join(words, ' '))
  {
    Text.JoinTakeSplitIsPrefix(text, ' ', k);
    var pieces := Text.Split(text, ' ');
    assert forall j :: 0 <= j < |Text.Take(pieces, k)| ==> Text.Take(pieces, k)[j] == pieces[j];
  }

  /** Shortening by words offers at most eight space-free words joined by single spaces, a
      prefix of the text. */
  lemma ShortenFirstIsWordPrefix(text: string, rw: Rewrites)
    ensures var words := Text.Take(Text.Split(text, ' '), 8);
              && |words| <= 8 && (forall j :: 0 <= j < |words| ==> ' ' !in words[j])
              && ShortenCandidates(text, rw)[0] == Text.Join(words, ' ')
              && Text.StartsWith(text, ShortenCandidates(text, rw)[0])
  {
    FirstWordsArePrefix(text, 8);
  }

  /** Shortening by sentence offers the text up to its first full stop. */
  lemma ShortenThirdIsFirstSentence(text: string, rw: Rewrites)
    ensures Text.StartsWith(text, ShortenCandidates(text, rw)[2])
    ensures '.' !in ShortenCandidates(text, rw)[2]
  {
    Text.FirstPieceOfSplit(text, '.');
  }

  /** Simplifying by sentence offers the text up to its first full stop, then a full stop. */
  lemma SimplifyFirstIsFirstSentence(text: string, rw: Rewrites)
    ensures var first := SimplifyCandidates(text, rw)[0];
              first[|first| - 1] == '.' && Text.StartsWith(text, first[..|first| - 1])
              && '.' !in first[..|first| - 1]
  {
    var first := SimplifyCandidates(text, rw)[0];
    assert first[..|first| - 1] == Text.Split(text, '.')[0];
    Text.FirstPieceOfSplit(text, '.');
  }

  /** Simplifying by words offers at most ten space-free words, a prefix of the text, and
      an ellipsis. */
  lemma SimplifyThirdIsWordPrefix(text: string, rw: Rewrites)
    ensures var words := Text.Take(Text.Split(text, ' '), 10);
            var third := SimplifyCandidates(text, rw)[2];
              && |words| <= 10 && (forall j :: 0 <= j < |words| ==> ' ' !in words[j])
              && |third| >= 3 && third[|third| - 3..] == "..."
              && third[..|third| - 3] == Text.Join(words, ' ')
              && Text.StartsWith(text, third[..|third| - 3])
  {
    var third := SimplifyCandidates(text, rw)[2];
    assert third[..|third| - 3] == Text.Join(Text.Take(Text.Split(text, ' '), 10), ' ');
    FirstWordsArePrefix(text, 10);
  }

  /** The `try` and the `catch` of the request: after the request, and as the fallback
      when it throws, the dialog generates the same mock suggestions from the message. */
  method SuggestionsAfterRequest(text: string, option: string, rw: Rewrites, outcome: RequestOutcome)
    returns (r: seq<string>)
    ensures r == GenerateMockSuggestions(text, option, rw)
  {
    if outcome == Delivered {
      r := GenerateMockSuggestions(text, option, rw);
    } else {
      r := GenerateMockSuggestions(text, option, rw);
    }
  }

  class SuggestionDialog {
    var selectedOption: string
    var suggestions: seq<string>
    var isLoading: bool
    /** The parent's callbacks, in the order the dialog called them. */
    var calls: seq<Callback>

    constructor ()
      ensures selectedOption == "" && suggestions == [] && !isLoading && calls == []
      ensures ShowsOptions()
    {
      selectedOption := "";
      suggestions := [];
      isLoading := false;
      calls := [];
    }

    /** The option buttons are shown only while there are no suggestions and nothing loads. */
    predicate ShowsOptions()
      reads this
    {
      suggestions == [] && !isLoading
    }

    /** `handleGetSuggestions(option)`: a message that trims to empty (a blank one, by
        `Text.TrimEmptyIffBlank`) is reported and changes nothing;
        otherwise the request goes out with the untrimmed message, and whatever its outcome
        the dialog shows the generated suggestions and stops loading. */
    method HandleGetSuggestions(currentMessage: string, option: string, rw: Rewrites,
                                now: string, outcome: RequestOutcome) returns (request: Option<SuggestionRequest>)
      modifies this`selectedOption, this`suggestions, this`isLoading
      ensures Text.Trim(currentMessage) == "" ==>
                request == None && selectedOption == old(selectedOption)
                && suggestions == old(suggestions) && isLoading == old(isLoading)
      ensures Text.Trim(currentMessage) != "" ==>
                && request == Some(SuggestionRequest(currentMessage, option, now))
                && selectedOption == option && !isLoading
                && suggestions == GenerateMockSuggestions(currentMessage, option, rw)
    {
      if Text.Trim(currentMessage) == "" {
        return None;
      }
      var generated := SuggestionsAfterRequest(currentMessage, option, rw, outcome);
      isLoading := true;
      selectedOption := option;
      request := Some(SuggestionRequest(currentMessage, option, now));
      suggestions := generated;
      isLoading := false;
    }

    /** `handleApply(suggestion)`: hands the suggestion to the parent and returns to the options. */
    method HandleApply(suggestion: string)
      modifies this`calls, this`suggestions, this`selectedOption
      ensures calls == old(calls) + [ApplySuggestion(suggestion)]
      ensures suggestions == [] && selectedOption == ""
    {
      calls := calls + [ApplySuggestion(suggestion)];
      suggestions := [];
      selectedOption := "";
    }

    /** `handleClose`: tells the parent, and clears suggestions, option and loading. */
    method HandleClose()
      modifies this`calls, this`suggestions, this`selectedOption, this`isLoading
      ensures calls == old(calls) + [CloseDialog]
      ensures suggestions == [] && selectedOption == "" && !isLoading
      ensures ShowsOptions()
    {
      calls := calls + [CloseDialog];
      suggestions := [];
      selectedOption := "";
      isLoading := false;
    }

    /** The "Voltar" button: back to the options, without telling the parent. */
    method BackToOptions()
      modifies this`suggestions, this`selectedOption
      ensures suggestions == [] && selectedOption == ""
      ensures !isLoading ==> ShowsOptions()
    {
      suggestions := [];
      selectedOption := "";
    }
  }
}
