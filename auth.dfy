/** The sign-in screen (src/components/AuthScreen.tsx): an access key from a
    fixed list, then a service number, each step confirmed by a timer, and
    the background carousel. */
module Auth {
  import opened Types
  import opened Text

  const ValidAccessKeys: seq<string> := ["AFOS2024", "DEMO1234", "ACCESS99"]

  /** The number of background images. */
  const ImageCount: nat := 7

  const InvalidKeyMessage: string := "Invalid access key. Please check with reception."
  const MissingServiceNumberMessage: string := "Please enter your service number"

  /** `VALID_ACCESS_KEYS.includes(accessCode.toUpperCase())`. */
  predicate IsValidAccessKey(code: string) {
    Upper(code) in ValidAccessKeys
  }

  /** A key is accepted in any letter case, and only if it spells one of the
      listed keys. */
  lemma AccessKeyIgnoresCase(code: string)
    ensures IsValidAccessKey(Lower(code)) <==> IsValidAccessKey(code)
  {
    UpperIgnoresCase(code);
  }

  /** Upper-casing leaves a string without lower-case letters as it is. */
  lemma UpperOfUpperCase(s: string)
    requires HasNoLowerAscii(s)
    ensures Upper(s) == s
  {
    assert forall i :: 0 <= i < |s| ==> Upper(s)[i] == s[i];
  }

  lemma UpperOfLowerKey()
    ensures Upper("afos2024") == "AFOS2024"
  {
    var u := Upper("afos2024");
    assert u[0] == 'A' && u[1] == 'F' && u[2] == 'O' && u[3] == 'S';
    assert u[4] == '2' && u[5] == '0' && u[6] == '2' && u[7] == '4';
  }

  /** A listed key is accepted as written and in lower case; the empty code
      is not. */
  lemma ListedKeyAccepted()
    ensures IsValidAccessKey("AFOS2024") && IsValidAccessKey("afos2024")
    ensures !IsValidAccessKey("")
  {
    var key := "AFOS2024";
    assert key == ValidAccessKeys[0];
    UpperOfUpperCase(key);
    UpperOfLowerKey();
    assert Upper("") == "";
  }

  /** The profile the screen hands to the page. */
  function AuthenticatedProfile(serviceId: string): UserProfile {
    UserProfile("Wiron R", "", "", 200000, Some(serviceId))
  }

  datatype Step = KeyStep | ServiceIdStep

  class AuthScreen {
    var step: Step
    var accessCode: string
    var serviceId: string
    var loading: bool
    var error: string
    var imageIndex: nat
    var modalVisible: bool
    /** The pending entrance timer. */
    var entranceTimer: bool
    /** The pending timer of an accepted key. */
    var codeTimer: bool
    /** The pending timer of a submitted service number, with the number it
        captured. */
    var idTimer: bool
    var pendingServiceId: string
    /** Whether a key has been accepted on this screen. */
    ghost var keyAccepted: bool

    ghost predicate Valid() reads this {
      imageIndex < ImageCount &&
      HasNoLowerAscii(accessCode) &&
      (codeTimer || idTimer || step == ServiceIdStep ==> keyAccepted) &&
      (idTimer ==> Trim(pendingServiceId) != [])
    }

    /** The submit button of the key form is disabled while loading and while
        the field is empty. */
    function CodeSubmitDisabled(): bool
      reads this
    {
      loading || |accessCode| == 0
    }

    /** And likewise the service-number form. */
    function IdSubmitDisabled(): bool
      reads this
    {
      loading || |serviceId| == 0
    }

    constructor ()
      ensures Valid()
      ensures step == KeyStep && accessCode == "" && serviceId == "" && error == ""
      ensures !loading && imageIndex == 0 && !modalVisible && entranceTimer
      ensures !codeTimer && !idTimer && !keyAccepted
    {
      step, accessCode, serviceId, error := KeyStep, "", "", "";
      loading, imageIndex, modalVisible, entranceTimer := false, 0, false, true;
      codeTimer, idTimer, pendingServiceId := false, false, "";
      keyAccepted := false;
    }

    /** Typing in the key field: the field holds the upper-cased text and the
        error is cleared. */
    method ChangeAccessCode(typed: string)
      requires Valid()
      modifies this`accessCode, this`error
      ensures Valid() && accessCode == Upper(typed) && error == ""
    {
      accessCode, error := Upper(typed), "";
    }

    /** Typing in the service-number field clears the error. */
    method ChangeServiceId(typed: string)
      requires Valid()
      modifies this`serviceId, this`error
      ensures Valid() && serviceId == typed && error == ""
    {
      serviceId, error := typed, "";
    }

    /** `handleCodeSubmit`, reachable from the key form while its button is
        enabled. An unlisted key sets the error; a listed one starts the
        timer. */
    method SubmitCode()
      requires Valid()
      modifies this`error, this`loading, this`codeTimer, this`keyAccepted
      ensures Valid()
      ensures step != KeyStep || old(CodeSubmitDisabled()) ==>
                error == old(error) && loading == old(loading) && codeTimer == old(codeTimer)
      ensures step == KeyStep && !old(CodeSubmitDisabled()) && !IsValidAccessKey(accessCode) ==>
                error == InvalidKeyMessage && !loading && codeTimer == old(codeTimer)
      ensures step == KeyStep && !old(CodeSubmitDisabled()) && IsValidAccessKey(accessCode) ==>
                error == "" && loading && codeTimer && keyAccepted
    {
      if step == KeyStep && !CodeSubmitDisabled() {
        error := "";
        if !IsValidAccessKey(accessCode) {
          error := InvalidKeyMessage;
        } else {
          loading, codeTimer, keyAccepted := true, true, true;
        }
      }
    }

    /** The key timer fires: on to the service-number step. */
    method CodeTimerElapsed()
      requires Valid()
      modifies this`loading, this`step, this`codeTimer
      ensures Valid() && !codeTimer
      ensures old(codeTimer) ==> !loading && step == ServiceIdStep
      ensures !old(codeTimer) ==> loading == old(loading) && step == old(step)
    {
      if codeTimer {
        loading, step, codeTimer := false, ServiceIdStep, false;
      }
    }

    /** `handleIdSubmit`, reachable from the service-number form while its
        button is enabled. A blank number sets the error; otherwise the
        timer starts with the number as typed. */
    method SubmitId()
      requires Valid()
      modifies this`error, this`loading, this`idTimer, this`pendingServiceId
      ensures Valid()
      ensures step != ServiceIdStep || old(IdSubmitDisabled()) ==>
                error == old(error) && loading == old(loading) && idTimer == old(idTimer) &&
                pendingServiceId == old(pendingServiceId)
      ensures step == ServiceIdStep && !old(IdSubmitDisabled()) && AllWhiteSpace(serviceId) ==>
                error == MissingServiceNumberMessage && !loading && idTimer == old(idTimer)
      ensures step == ServiceIdStep && !old(IdSubmitDisabled()) && !AllWhiteSpace(serviceId) ==>
                error == old(error) && loading && idTimer && pendingServiceId == serviceId
    {
      if step == ServiceIdStep && !IdSubmitDisabled() {
        TrimEmptyIffBlank(serviceId);
        if Trim(serviceId) == [] {
          error := MissingServiceNumberMessage;
        } else {
          loading, idTimer, pendingServiceId := true, true, serviceId;
        }
      }
    }

    /** The service-number timer fires and hands the profile to the page. A
        profile only ever comes out after a listed key was accepted, and its
        service number is not blank. */
    method IdTimerElapsed() returns (r: Option<UserProfile>)
      requires Valid()
      modifies this`loading, this`idTimer
      ensures Valid() && !idTimer
      ensures old(idTimer) ==> !loading && r == Some(AuthenticatedProfile(pendingServiceId))
      ensures r.Some? ==> keyAccepted && r.value.serviceNumber.Some? && !AllWhiteSpace(r.value.serviceNumber.value)
      ensures !old(idTimer) ==> r.None? && loading == old(loading)
    {
      if idTimer {
        TrimEmptyIffBlank(pendingServiceId);
        loading, idTimer := false, false;
        r := Some(AuthenticatedProfile(pendingServiceId));
      } else {
        r := None;
      }
    }

    /** "Use different access key": back to the key step with an empty field. */
    method Back()
      requires Valid()
      modifies this`step, this`accessCode, this`error
      ensures Valid() && step == KeyStep && accessCode == "" && error == ""
    {
      step, accessCode, error := KeyStep, "", "";
    }

    /** The carousel interval. */
    method CarouselTick()
      requires Valid()
      modifies this`imageIndex
      ensures Valid() && imageIndex == (old(imageIndex) + 1) % ImageCount
    {
      imageIndex := (imageIndex + 1) % ImageCount;
    }

    /** A carousel dot. */
    method SelectImage(index: nat)
      requires Valid() && index < ImageCount
      modifies this`imageIndex
      ensures Valid() && imageIndex == index
    {
      imageIndex := index;
    }

    /** The entrance timer fires. */
    method EntranceTimerElapsed()
      requires Valid()
      modifies this`modalVisible, this`entranceTimer
      ensures Valid() && !entranceTimer
      ensures modalVisible == (old(modalVisible) || old(entranceTimer))
    {
      if entranceTimer {
        modalVisible, entranceTimer := true, false;
      }
    }
  }

  /** Seven ticks bring the carousel back to the image it showed. */
  lemma {:induction false} CarouselCycles(i: nat, n: nat)
    requires i < ImageCount
    ensures Advance(i, n + ImageCount) == Advance(i, n)
  {
    AdvanceIsShift(i, n + ImageCount);
    AdvanceIsShift(i, n);
    assert (i + n + ImageCount) % ImageCount == (i + n) % ImageCount;
  }

  /** The image shown after n ticks from image i. */
  function Advance(i: nat, n: nat): (r: nat)
    ensures r < ImageCount
  {
    if n == 0 then i % ImageCount else (Advance(i, n - 1) + 1) % ImageCount
  }

  lemma {:induction false} AdvanceIsShift(i: nat, n: nat)
    ensures Advance(i, n) == (i + n) % ImageCount
  {
    if n > 0 { AdvanceIsShift(i, n - 1); }
  }
}
