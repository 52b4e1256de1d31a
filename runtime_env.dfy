/** `useRuntimeEnv`: the user agent, lower-cased, classified as Android, Quest
    browser and VR browser by substring tests. */
module RuntimeEnv {
  import opened Text

  datatype RuntimeEnvironment = RuntimeEnvironment(isAndroid: bool, isQuestBrowser: bool, isVRBrowser: bool, userAgent: string)

  /** The state before the effect has run. */
  const Undetected := RuntimeEnvironment(false, false, false, "")

  /** `word` occurs, at some index, in the lower-cased agent. */
  ghost predicate Mentions(userAgent: string, word: string) {
    exists i :: OccursAt(Lower(userAgent), word, i)
  }

  /** The effect's classification of `userAgent`, by substring tests on the
      lower-cased agent; the agent itself is kept as given, not lower-cased. */
  function Detect(userAgent: string): (e: RuntimeEnvironment)
    ensures e.userAgent == userAgent
    ensures e.isAndroid <==> Mentions(userAgent, "android")
    ensures e.isQuestBrowser <==>
      Mentions(userAgent, "quest") || (Mentions(userAgent, "android") && Mentions(userAgent, "oculusbrowser"))
    ensures e.isVRBrowser <==> e.isQuestBrowser || Mentions(userAgent, "vr")
    ensures e.isQuestBrowser ==> e.isVRBrowser
  {
    var agent := Lower(userAgent);
    ContainsIffOccurs(agent, "android");
    ContainsIffOccurs(agent, "quest");
    ContainsIffOccurs(agent, "oculusbrowser");
    ContainsIffOccurs(agent, "vr");
    var isAndroid := Contains(agent, "android");
    var isQuestBrowser := Contains(agent, "quest") || (isAndroid && Contains(agent, "oculusbrowser"));
    RuntimeEnvironment(isAndroid, isQuestBrowser, isQuestBrowser || Contains(agent, "vr"), userAgent)
  }

  /** Every Quest browser is a VR browser. */
  lemma QuestImpliesVR(userAgent: string)
    ensures Detect(userAgent).isQuestBrowser ==> Detect(userAgent).isVRBrowser
  {
  }

  /** The classification ignores letter case. */
  lemma {:induction false} DetectIgnoresCase(userAgent: string)
    ensures var a, b := Detect(Lower(userAgent)), Detect(userAgent);
      a.isAndroid == b.isAndroid && a.isQuestBrowser == b.isQuestBrowser && a.isVRBrowser == b.isVRBrowser
  {
    LowerIdempotent(userAgent);
  }

  /** An empty agent classifies as the initial state. */
  lemma EmptyAgentIsUndetected()
    ensures Detect("") == Undetected
  {
    assert Lower("") == "";
  }

  /** Example: "Android VR" is an Android VR browser, and the stored agent
      keeps its case. */
  lemma {:induction false} AndroidVRExample()
    ensures Detect("Android VR").isAndroid && Detect("Android VR").isVRBrowser
    ensures Detect("Android VR").userAgent == "Android VR"
  {
    var agent := Lower("Android VR");
    assert agent == "android vr" by {
      assert LowerChar('A') == 'a' && LowerChar('V') == 'v' && LowerChar('R') == 'r';
      assert forall i :: 0 <= i < |agent| ==> agent[i] == "android vr"[i];
    }
    var lower := "android vr";
    assert lower[0..7] == "android" && lower[8..10] == "vr";
    assert OccursAt(agent, "android", 0);
    assert OccursAt(agent, "vr", 8);
  }
}
