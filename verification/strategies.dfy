/** The writing styles. Each style turns the user's text into the prompt sent
    to the provider by putting a fixed instruction and a blank line in front
    of the text, which is kept verbatim. */
module Strategies {
  import opened Options

  datatype Strategy = Creative | Academic | Professional

  /** The instruction every style starts with, before its own wording. */
  const CommonOpening: string := "Rewrite the following text in a "

  /** What each style asks for, between the common opening and the colon.
      Together with `CommonOpening` and the trailing `":\n\n"` these spell
      out the string literals of the three strategy classes. */
  function Wording(s: Strategy): (w: string)
    ensures |w| > 1
  {
    match s
    case Creative => "creative, " + "expressive style"
    case Academic => "formal, " + "academic style, " + "using precise language " + "and proper grammar"
    case Professional => "clear, " + "professional tone " + "suitable for work or business"
  }

  /** The fixed instruction of each style: the common opening, the style's
      wording, a colon and a blank line. */
  function Prefix(s: Strategy): (p: string)
    ensures |p| == |CommonOpening| + |Wording(s)| + 3
    ensures p[..|CommonOpening|] == CommonOpening
    ensures p[|CommonOpening|..|p| - 3] == Wording(s)
    ensures p[|p| - 3..] == ":\n\n"
    ensures p[|CommonOpening| + 1] == Wording(s)[1]
  {
    var p := CommonOpening + Wording(s) + ":\n\n";
    assert p[..|CommonOpening|] == CommonOpening;
    assert p[|CommonOpening|..|p| - 3] == Wording(s);
    p
  }

  /** The instructions read in full, as the three strategy classes spell
      them. The solver compares string literals only up to a modest length,
      so the longer two are checked one piece of wording at a time by the
      `...Step` lemmas that follow. */
  lemma CreativePrefixLiteral()
    ensures Prefix(Creative) == "Rewrite the following text in a creative, expressive style:\n\n"
  {
    CreativeStep1();
    CreativeStep2();
  }

  lemma AcademicPrefixLiteral()
    ensures Prefix(Academic)
         == "Rewrite the following text in a formal, academic style, using precise language and proper grammar:\n\n"
  {
    AcademicStep1();
    AcademicStep2();
    AcademicStep3();
    AcademicStep4();
  }

  lemma ProfessionalPrefixLiteral()
    ensures Prefix(Professional)
         == "Rewrite the following text in a clear, professional tone suitable for work or business:\n\n"
  {
    ProfessionalStep1();
    ProfessionalStep2();
    ProfessionalStep3();
  }

  lemma CreativeStep1()
    ensures CommonOpening + "creative, " + "expressive style"
         == "Rewrite the following text in a creative, expressive style"
  {
  }

  lemma CreativeStep2()
    ensures "Rewrite the following text in a creative, expressive style" + ":\n\n"
         == "Rewrite the following text in a creative, expressive style:\n\n"
  {
  }

  lemma AcademicStep1()
    ensures CommonOpening + "formal, " + "academic style, "
         == "Rewrite the following text in a formal, academic style, "
  {
  }

  lemma AcademicStep2()
    ensures "Rewrite the following text in a formal, academic style, " + "using precise language "
         == "Rewrite the following text in a formal, academic style, using precise language "
  {
  }

  lemma AcademicStep3()
    ensures "Rewrite the following text in a formal, academic style, using precise language " + "and proper grammar"
         == "Rewrite the following text in a formal, academic style, using precise language and proper grammar"
  {
  }

  lemma AcademicStep4()
    ensures "Rewrite the following text in a formal, academic style, using precise language and proper grammar" + ":\n\n"
         == "Rewrite the following text in a formal, academic style, using precise language and proper grammar:\n\n"
  {
  }

  lemma ProfessionalStep1()
    ensures CommonOpening + "clear, " + "professional tone "
         == "Rewrite the following text in a clear, professional tone "
  {
  }

  lemma ProfessionalStep2()
    ensures "Rewrite the following text in a clear, professional tone " + "suitable for work or business"
         == "Rewrite the following text in a clear, professional tone suitable for work or business"
  {
  }

  lemma ProfessionalStep3()
    ensures "Rewrite the following text in a clear, professional tone suitable for work or business" + ":\n\n"
         == "Rewrite the following text in a clear, professional tone suitable for work or business:\n\n"
  {
  }

  /** `buildPrompt(originalText)` of the style: the prompt is the style's
      instruction followed by the text, which is neither trimmed nor escaped. */
  function BuildPrompt(s: Strategy, text: string): (p: string)
    ensures |p| == |Prefix(s)| + |text|
    ensures p[..|Prefix(s)|] == Prefix(s)
    ensures p[|Prefix(s)|..] == text
    ensures text == "" ==> p == Prefix(s)
  {
    Prefix(s) + text
  }

  /** The position at which the three instructions first differ. */
  const StyleIndex: nat := |CommonOpening| + 1

  /** The three instructions already differ at `StyleIndex`, which lies inside
      each of them, so none is a prefix of another. */
  lemma PrefixesDiffer(s1: Strategy, s2: Strategy)
    ensures StyleIndex < |Prefix(s1)| && StyleIndex < |Prefix(s2)|
    ensures s1 != s2 ==> Prefix(s1)[StyleIndex] != Prefix(s2)[StyleIndex]
  {
    assert Wording(Creative)[1] == 'r';
    assert Wording(Academic)[1] == 'o';
    assert Wording(Professional)[1] == 'l';
  }

  /** `p` starts with the instruction of `s`. */
  predicate HasPrefix(p: string, s: Strategy) {
    |Prefix(s)| <= |p| && p[..|Prefix(s)|] == Prefix(s)
  }

  /** The text that follows the instruction of `s` in `p`. */
  function TextAfter(p: string, s: Strategy): (t: string)
    requires HasPrefix(p, s)
    ensures BuildPrompt(s, t) == p
  {
    var t := p[|Prefix(s)|..];
    assert p == p[..|Prefix(s)|] + t;
    t
  }

  /** Recovers the style and the user's text from a prompt, when the prompt
      starts with one of the three instructions. */
  function ParsePrompt(p: string): (r: Option<(Strategy, string)>)
    ensures r.Some? ==> BuildPrompt(r.value.0, r.value.1) == p
    ensures r.None? ==> forall s: Strategy :: !HasPrefix(p, s)
  {
    if HasPrefix(p, Creative) then Some((Creative, TextAfter(p, Creative)))
    else if HasPrefix(p, Academic) then Some((Academic, TextAfter(p, Academic)))
    else if HasPrefix(p, Professional) then Some((Professional, TextAfter(p, Professional)))
    else None
  }

  /** A prompt can only start with the instruction of the style that built it. */
  lemma PromptHasOnlyItsPrefix(s: Strategy, t: string, other: Strategy)
    ensures HasPrefix(BuildPrompt(s, t), other) <==> other == s
  {
    PrefixesDiffer(s, other);
  }

  /** Parsing a built prompt gives back the style and the text. */
  lemma ParseBuildPrompt(s: Strategy, t: string)
    ensures ParsePrompt(BuildPrompt(s, t)) == Some((s, t))
  {
    PromptHasOnlyItsPrefix(s, t, Creative);
    PromptHasOnlyItsPrefix(s, t, Academic);
    PromptHasOnlyItsPrefix(s, t, Professional);
  }

  /** Equal prompts come from the same style and the same text: each style is
      injective in its text, and no two styles ever produce the same prompt,
      whatever the texts. */
  lemma BuildPromptInjective(s1: Strategy, t1: string, s2: Strategy, t2: string)
    ensures BuildPrompt(s1, t1) == BuildPrompt(s2, t2) <==> s1 == s2 && t1 == t2
  {
    ParseBuildPrompt(s1, t1);
    ParseBuildPrompt(s2, t2);
  }
}
