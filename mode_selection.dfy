/** The mode-selection screen (`ModeSelectionView`): the modes it offers, their gradients and the welcome name. */
module ModeSelection {
  import opened Wrappers
  import opened Store
  import opened Chat

  /** The three buttons, in on-screen order. */
  const OfferedModes: seq<string> := [RoastMode, ComplimentMode, SurpriseMode]

  /**
   * Exactly three distinct modes are offered, and the prompt composer
   * recognises each of them: none of them passes the input through unchanged.
   */
  lemma OfferedModesAreTemplated()
    ensures |OfferedModes| == 3
    ensures forall i, j :: 0 <= i < j < |OfferedModes| ==> OfferedModes[i] != OfferedModes[j]
    ensures forall m :: m in OfferedModes <==> IsKnownMode(m)
    ensures forall i, p, s :: 0 <= i < |OfferedModes| ==> GeneratePrompt(OfferedModes[i], p, s) != s
  {
    forall i, p, s | 0 <= i < |OfferedModes| ensures GeneratePrompt(OfferedModes[i], p, s) != s {
      assert IsKnownMode(OfferedModes[i]);
      assert |GeneratePrompt(OfferedModes[i], p, s)| > |s|;
    }
  }

  datatype Color = Red | Orange | Pink | Cyan | Purple | Yellow | Gray

  /** `gradientForMode`: a two-colour gradient per known mode, plain grey for anything else. */
  function GradientForMode(mode: string): (colors: seq<Color>)
    ensures IsKnownMode(mode) <==> |colors| == 2
    ensures !IsKnownMode(mode) ==> colors == [Gray]
    ensures Gray !in colors <==> IsKnownMode(mode)
  {
    if mode == RoastMode then [Red, Orange]
    else if mode == ComplimentMode then [Pink, Cyan]
    else if mode == SurpriseMode then [Purple, Yellow]
    else [Gray]
  }

  /** Each mode gets its own gradient: two strings share one only when both are unknown or they are equal. */
  lemma GradientsDistinguishModes(m1: string, m2: string)
    ensures GradientForMode(m1) == GradientForMode(m2) <==> m1 == m2 || (!IsKnownMode(m1) && !IsKnownMode(m2))
  {
    if IsKnownMode(m1) && IsKnownMode(m2) && m1 != m2 {
      assert GradientForMode(m1)[0] != GradientForMode(m2)[0];
    }
  }

  /**
   * The name in the greeting, once the user's record has been read: the
   * stored name when it is a non-empty string, else the account's display
   * name if it is non-empty, else "Friend".
   */
  function WelcomeName(data: Option<Record>, displayName: Option<string>): (name: string)
    ensures name != []
    ensures data.Some? && StringOr(data.value, "name") != [] ==> name == StringOr(data.value, "name")
    ensures !(data.Some? && StringOr(data.value, "name") != []) && displayName.Some? && displayName.value != [] ==>
      name == displayName.value
    ensures !(data.Some? && StringOr(data.value, "name") != []) && !(displayName.Some? && displayName.value != []) ==>
      name == "Friend"
  {
    if data.Some? && CastString(data.value, "name").Some? && CastString(data.value, "name").value != [] then
      CastString(data.value, "name").value
    else if displayName.Some? && displayName.value != [] then displayName.value
    else "Friend"
  }

  /** The signed-in account as the screen sees it. */
  datatype AuthUser = AuthUser(uid: string, displayName: Option<string>)

  class ModeSelectionScreen {
    var userName: Option<string>

    constructor ()
      ensures userName == None
    {
      userName := None;
    }

    /**
     * `onAppear`, with `read` standing for the store (a failed read has no
     * data): without a signed-in user the greeting stays as it was;
     * otherwise it shows the welcome name chosen from that user's own record.
     */
    method Appear(user: Option<AuthUser>, read: string -> Option<Record>)
      modifies this`userName
      ensures user.None? ==> userName == old(userName)
      ensures user.Some? ==> userName == Some(WelcomeName(read(user.value.uid), user.value.displayName))
    {
      if user.Some? {
        CompleteAppear(user.value, read(user.value.uid));
      }
    }

    /** The read's completion (a failed read has no data): the greeting then always shows a non-empty name. */
    method CompleteAppear(user: AuthUser, data: Option<Record>)
      modifies this`userName
      ensures userName == Some(WelcomeName(data, user.displayName))
      ensures userName.Some? && userName.value != []
    {
      var stored := if data.Some? then CastString(data.value, "name") else None;
      if stored.Some? && stored.value != [] {
        userName := stored;
      } else if user.displayName.Some? && user.displayName.value != [] {
        userName := user.displayName;
      } else {
        userName := Some("Friend");
      }
    }
  }
}
