/** The fuzzy matcher the bot calls (`process.extractOne` of fuzzywuzzy).
    Its scoring algorithm is a foreign library; what the bot relies on is
    kept as the type of the matcher: given a non-empty list of choices it
    returns one of them, with a similarity score between 0 and 100. */
module Fuzzy {

  type Score = s: int | 0 <= s <= 100

  datatype Match = Match(name: string, score: Score)

  ghost predicate ReturnsAChoice(f: (string, seq<string>) -> Match) {
    forall token, choices :: |choices| > 0 ==> f(token, choices).name in choices
  }

  /** Every matcher the bot may be configured with. */
  type Matcher = f: (string, seq<string>) -> Match | ReturnsAChoice(f)
    witness (token: string, choices: seq<string>) =>
      if |choices| > 0 then Match(choices[0], 0) else Match("", 0)

  /** The score below which a fuzzy result is rejected (app.py uses 70 for pick and remove). */
  const Threshold: int := 70

  /** `process.extractOne(token, choices)`: the best match among the choices and its score. */
  function ExtractOne(m: Matcher, token: string, choices: seq<string>): (r: Match)
    requires |choices| > 0
    ensures r.name in choices
    ensures 0 <= r.score <= 100
  {
    m(token, choices)
  }
}
