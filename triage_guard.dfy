/** The emergency guard of app/services/triage_guard.py: a case-insensitive any-phrase test. */
module Guard {
  import opened Strings
  import opened Emergencies

  /** Python's `any(k in text for k in keywords)`. */
  function AnyOccurs(keywords: seq<string>, text: string): (r: bool)
    ensures r <==> exists i :: 0 <= i < |keywords| && Contains(text, keywords[i])
    decreases |keywords|
  {
    if |keywords| == 0 then false
    else Contains(text, keywords[0]) || AnyOccurs(keywords[1..], text)
  }

  /** `[kw.lower() for kw in xs]`. */
  function LowerAll(xs: seq<string>): seq<string> {
    seq(|xs|, i requires 0 <= i < |xs| => Lower(xs[i]))
  }

  /** The guard object: the lowered phrase list and the advisory it hands out. */
  datatype TriageGuard = TriageGuard(keywords: seq<string>, alertMessage: string) {

    /** `is_emergency`: some stored phrase occurs in the lowercased message. */
    predicate IsEmergency(userMessage: string) {
      AnyOccurs(keywords, Lower(userMessage))
    }

    /** `get_alert_message`. */
    function GetAlertMessage(): string {
      alertMessage
    }
  }

  /** No emergency phrase holds a capital letter. */
  lemma KeywordsHaveNoCapitals()
    ensures forall i :: 0 <= i < |EmergencyKeywords| ==> NoUpper(EmergencyKeywords[i])
  {
  }

  /** The emergency phrases are already lower case, so lowering them changes nothing. */
  lemma KeywordsAreLowercase()
    ensures LowerAll(EmergencyKeywords) == EmergencyKeywords
  {
    KeywordsHaveNoCapitals();
    forall i | 0 <= i < |EmergencyKeywords|
      ensures LowerAll(EmergencyKeywords)[i] == EmergencyKeywords[i]
    {
      LowerFixesNoUpper(EmergencyKeywords[i]);
    }
  }

  /**
   * `TriageGuard()`: stores the lowered phrases, which are exactly the constants in
   * their original order, and the advisory text unchanged.
   */
  function NewTriageGuard(): (g: TriageGuard)
    ensures g.keywords == EmergencyKeywords
    ensures g.GetAlertMessage() == EmergencyMessage
  {
    KeywordsAreLowercase();
    TriageGuard(LowerAll(EmergencyKeywords), EmergencyMessage)
  }

  /** The default guard flags a message iff some emergency phrase occurs in its lowercased text. */
  lemma IsEmergencyIffPhrase(m: string)
    ensures NewTriageGuard().IsEmergency(m)
        <==> exists i :: 0 <= i < |EmergencyKeywords| && Contains(Lower(m), EmergencyKeywords[i])
  {
  }

  /** Detection is monotone: a message that contains a flagged message is flagged too. */
  lemma IsEmergencyMonotone(g: TriageGuard, m: string, m': string)
    requires Contains(m', m) && g.IsEmergency(m)
    ensures g.IsEmergency(m')
  {
    var i :| 0 <= i < |g.keywords| && Contains(Lower(m), g.keywords[i]);
    LowerKeepsContains(m', m);
    ContainsTransitive(Lower(m'), Lower(m), g.keywords[i]);
  }

  /** The empty message is not an emergency: every phrase is non-empty. */
  lemma EmptyIsNotEmergency()
    ensures !NewTriageGuard().IsEmergency("")
  {
    var g := NewTriageGuard();
    assert Lower("") == "";
    forall i | 0 <= i < |g.keywords|
      ensures !Contains("", g.keywords[i])
    {
      NothingInEmpty(g.keywords[i]);
    }
  }

  /** A phrase written verbatim (in lower case) inside a message is detected. */
  lemma DetectsVerbatimPhrase(a: string, i: nat, b: string)
    requires i < |EmergencyKeywords|
    ensures NewTriageGuard().IsEmergency(a + EmergencyKeywords[i] + b)
  {
    var kw := EmergencyKeywords[i];
    ContainsMiddle(a, kw, b);
    LowerKeepsContains(a + kw + b, kw);
    KeywordsHaveNoCapitals();
    LowerFixesNoUpper(kw);
  }

  lemma DetectsChestPain()
    ensures NewTriageGuard().IsEmergency("Estou com " + "dor no peito" + " desde ontem")
  {
    assert EmergencyKeywords[0] == "dor no peito";
    DetectsVerbatimPhrase("Estou com ", 0, " desde ontem");
  }

  /** A text without the letters 'i', 'f' and 'ã' holds no emergency phrase. */
  lemma NoPhraseWithoutKeyLetters(s: string)
    requires 'i' !in s && 'f' !in s && 'ã' !in s
    ensures forall k :: 0 <= k < |EmergencyKeywords| ==> !Contains(s, EmergencyKeywords[k])
  {
    assert forall k :: 0 <= k < |EmergencyKeywords| ==>
      'i' in EmergencyKeywords[k] || 'f' in EmergencyKeywords[k] || 'ã' in EmergencyKeywords[k];
    forall k | 0 <= k < |EmergencyKeywords|
      ensures !Contains(s, EmergencyKeywords[k])
    {
      var kw := EmergencyKeywords[k];
      if 'i' in kw {
        MissingCharacter(s, kw, 'i');
      } else if 'f' in kw {
        MissingCharacter(s, kw, 'f');
      } else {
        MissingCharacter(s, kw, 'ã');
      }
    }
  }

  lemma LowerMildHeadache()
    ensures Lower("Estou apenas com dor de cabeça leve") == "estou apenas com dor de cabeça leve"
  {
  }

  lemma IgnoresMildHeadache()
    ensures !NewTriageGuard().IsEmergency("Estou apenas com dor de cabeça leve")
  {
    LowerMildHeadache();
    var low := "estou apenas com dor de cabeça leve";
    assert 'i' !in low && 'f' !in low && 'ã' !in low;
    NoPhraseWithoutKeyLetters(low);
  }

  lemma DetectsFaintingAndBreathlessness()
    ensures NewTriageGuard().IsEmergency("Tive um " + "desmaio" + " e agora sinto falta de ar")
  {
    assert EmergencyKeywords[2] == "desmaio";
    DetectsVerbatimPhrase("Tive um ", 2, " e agora sinto falta de ar");
  }
}
