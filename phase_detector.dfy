/**
 * Classification of an MT5 account name into a fund program and phase
 * (`detect_phase`): the first pattern, in list order, whose non-empty
 * `contains` text occurs case-insensitively in the search text wins.
 *
 * The phase segment that a fund's `name_format` extracts from the name is an
 * input here (`extracted`, already stripped): the regular-expression matching
 * that produces it is not part of this model.
 */
module PhaseDetector {
  import opened Wrappers
  import opened Text

  /** One entry of a fund's `account_name_patterns`; a missing "contains" reads as "". */
  datatype NamePattern = NamePattern(contains: string, program: string, phase: string)

  /** A fund's stored `account_name_patterns` text, as `json.loads` sees it. */
  datatype StoredPatterns =
    | NoPatterns                    // NULL or the empty string
    | Unparseable                   // not valid JSON
    | Patterns(list: seq<NamePattern>)

  /** `{"program_name": ..., "phase_name": ...}`. */
  datatype Detection = Detection(programName: string, phaseName: string)

  /** A pattern matches when its `contains` is non-empty and occurs in the text, ignoring case. */
  predicate Matches(p: NamePattern, text: string) {
    p.contains != [] && Contains(Lower(text), Lower(p.contains))
  }

  function DetectionOf(p: NamePattern): Detection {
    Detection(p.program, p.phase)
  }

  /** The first matching pattern, scanning the list in order. */
  function FindPattern(ps: seq<NamePattern>, text: string): Option<NamePattern> {
    if ps == [] then None
    else if Matches(ps[0], text) then Some(ps[0])
    else FindPattern(ps[1..], text)
  }

  /** The first-match search finds the lowest-indexed matching pattern, or none if none matches. */
  lemma {:induction false} FindPatternIsFirst(ps: seq<NamePattern>, text: string)
    ensures FindPattern(ps, text).None? <==> forall i :: 0 <= i < |ps| ==> !Matches(ps[i], text)
    ensures FindPattern(ps, text).Some? ==>
              exists i :: 0 <= i < |ps| && ps[i] == FindPattern(ps, text).value && Matches(ps[i], text)
                          && forall j :: 0 <= j < i ==> !Matches(ps[j], text)
  {
    if ps != [] && !Matches(ps[0], text) {
      FindPatternIsFirst(ps[1..], text);
      if FindPattern(ps, text).Some? {
        var i :| 0 <= i < |ps[1..]| && ps[1..][i] == FindPattern(ps, text).value && Matches(ps[1..][i], text)
                 && forall j :: 0 <= j < i ==> !Matches(ps[1..][j], text);
        assert ps[i + 1] == ps[1..][i];
        forall j | 0 <= j < i + 1 ensures !Matches(ps[j], text) {
          if j > 0 { assert ps[j] == ps[1..][j - 1]; }
        }
      } else {
        forall i | 0 <= i < |ps| ensures !Matches(ps[i], text) {
          if i > 0 { assert ps[i] == ps[1..][i - 1]; }
        }
      }
    } else if ps != [] {
      assert ps[0] == FindPattern(ps, text).value;
    }
  }

  /** The patterns whose `contains` is non-empty. */
  function WithContains(ps: seq<NamePattern>): seq<NamePattern> {
    if ps == [] then []
    else if ps[0].contains != [] then [ps[0]] + WithContains(ps[1..])
    else WithContains(ps[1..])
  }

  /** Patterns with an empty or missing `contains` never take part: dropping them changes nothing. */
  lemma {:induction false} EmptyContainsNeverMatch(ps: seq<NamePattern>, text: string)
    ensures FindPattern(ps, text) == FindPattern(WithContains(ps), text)
  {
    if ps != [] {
      EmptyContainsNeverMatch(ps[1..], text);
      if ps[0].contains != [] {
        assert WithContains(ps)[0] == ps[0];
        assert WithContains(ps)[1..] == WithContains(ps[1..]);
      }
    }
  }

  /** The phase segment counts only when it is non-empty (`if phase_value`). */
  function PhaseValue(extracted: Option<string>): Option<string> {
    if extracted.Some? && extracted.value != [] then extracted else None
  }

  /** The text matched first: the extracted phase segment if there is one, else the whole name. */
  function SearchText(name: string, extracted: Option<string>): string {
    if PhaseValue(extracted).Some? then PhaseValue(extracted).value else name
  }

  /** `detect_phase(name, fund)`, with the fund's patterns and extracted phase segment as inputs. */
  function DetectPhase(name: string, stored: StoredPatterns, extracted: Option<string>): Option<Detection> {
    if name == [] then None
    else match stored
      case NoPatterns => None
      case Unparseable => None
      case Patterns(ps) =>
        match FindPattern(ps, SearchText(name, extracted))
        case Some(p) => Some(DetectionOf(p))
        case None =>
          if PhaseValue(extracted).None? then None
          else match FindPattern(ps, name)
            case Some(p) => Some(DetectionOf(p))
            case None => None
  }

  /** A pattern that matches, with none matching before it, is the one the search returns. */
  lemma {:induction false} FindPatternFirst(ps: seq<NamePattern>, text: string, i: nat)
    requires i < |ps| && Matches(ps[i], text)
    requires forall j :: 0 <= j < i ==> !Matches(ps[j], text)
    ensures FindPattern(ps, text) == Some(ps[i])
  {
    if i > 0 {
      assert !Matches(ps[0], text);
      assert ps[1..][i - 1] == ps[i];
      forall j | 0 <= j < i - 1 ensures !Matches(ps[1..][j], text) {
        assert ps[1..][j] == ps[j + 1];
      }
      FindPatternFirst(ps[1..], text, i - 1);
    }
  }

  /**
   * `detect_phase` gives None for an empty name or unusable patterns, and
   * otherwise exactly when no pattern matches the search text nor the whole name.
   */
  lemma DetectPhaseNone(name: string, stored: StoredPatterns, extracted: Option<string>)
    ensures name == [] || !stored.Patterns? ==> DetectPhase(name, stored, extracted) == None
    ensures name != [] && stored.Patterns? ==>
              (DetectPhase(name, stored, extracted).None? <==>
                 forall i :: 0 <= i < |stored.list| ==>
                   !Matches(stored.list[i], SearchText(name, extracted)) && !Matches(stored.list[i], name))
  {
    if name != [] && stored.Patterns? {
      FindPatternIsFirst(stored.list, SearchText(name, extracted));
      FindPatternIsFirst(stored.list, name);
    }
  }

  /** The first pattern matching the search text decides the result. */
  lemma DetectPhaseFirstMatch(name: string, ps: seq<NamePattern>, extracted: Option<string>, i: nat)
    requires name != [] && i < |ps| && Matches(ps[i], SearchText(name, extracted))
    requires forall j :: 0 <= j < i ==> !Matches(ps[j], SearchText(name, extracted))
    ensures DetectPhase(name, Patterns(ps), extracted) == Some(DetectionOf(ps[i]))
  {
    FindPatternFirst(ps, SearchText(name, extracted), i);
  }

  /**
   * When a phase segment was extracted and no pattern matches it, the first
   * pattern matching the whole name decides the result.
   */
  lemma DetectPhaseFallback(name: string, ps: seq<NamePattern>, extracted: Option<string>, i: nat)
    requires name != [] && PhaseValue(extracted).Some?
    requires forall j :: 0 <= j < |ps| ==> !Matches(ps[j], SearchText(name, extracted))
    requires i < |ps| && Matches(ps[i], name) && forall j :: 0 <= j < i ==> !Matches(ps[j], name)
    ensures DetectPhase(name, Patterns(ps), extracted) == Some(DetectionOf(ps[i]))
  {
    FindPatternIsFirst(ps, SearchText(name, extracted));
    FindPatternFirst(ps, name, i);
  }

  /** Every detection is the program/phase pair of a stored pattern with a non-empty `contains`. */
  lemma DetectPhaseFromPattern(name: string, stored: StoredPatterns, extracted: Option<string>)
    ensures DetectPhase(name, stored, extracted).Some? ==>
              stored.Patterns? &&
              (exists i :: 0 <= i < |stored.list| && stored.list[i].contains != []
                 && DetectPhase(name, stored, extracted) == Some(DetectionOf(stored.list[i])))
  {
    if name != [] && stored.Patterns? {
      FindPatternIsFirst(stored.list, SearchText(name, extracted));
      FindPatternIsFirst(stored.list, name);
    }
  }
}
