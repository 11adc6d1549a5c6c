/** The nickname dialog (src/components/NicknameModal.tsx): validation of the trimmed
    name and the submit flow. The 500 ms delayed completion is a queue of pending
    timers that `CompleteSubmit` fires in order. */
module NicknameModal {
  import opened JsStrings

  const TooShortError := "닉네임은 2글자 이상이어야 합니다."
  const TooLongError := "닉네임은 10글자 이하여야 합니다."
  const CharsetError := "닉네임은 한글, 영문, 숫자만 사용할 수 있습니다."

  const MinLength: nat := 2
  const MaxLength: nat := 10

  /** One character of the class `[가-힣a-zA-Z0-9\s]`. */
  predicate AllowedChar(c: char) {
    ('가' <= c <= '힣') || ('a' <= c <= 'z') || ('A' <= c <= 'Z') || ('0' <= c <= '9') || IsWhitespace(c)
  }

  /** `/^[가-힣a-zA-Z0-9\s]+$/.test(name)`. */
  predicate MatchesCharset(name: string) {
    |name| > 0 && forall i :: 0 <= i < |name| ==> AllowedChar(name[i])
  }

  datatype Reason = TooShort | TooLong | BadCharset

  datatype Verdict = Accepted | Rejected(reason: Reason)

  /** The message `validateNickname` writes to `error` for each reason. */
  function Message(reason: Reason): (m: string)
    ensures m != ""
  {
    match reason
    case TooShort => TooShortError
    case TooLong => TooLongError
    case BadCharset => CharsetError
  }

  /** `validateNickname`: the length in UTF-16 code units is checked first against the
      lower bound, then the upper bound, then the character class. */
  function Validate(name: string): (v: Verdict)
    ensures Utf16Length(name) < MinLength ==> v == Rejected(TooShort)
    ensures MinLength <= Utf16Length(name) && MaxLength < Utf16Length(name) ==> v == Rejected(TooLong)
    ensures MinLength <= Utf16Length(name) <= MaxLength && !MatchesCharset(name) ==> v == Rejected(BadCharset)
    ensures v.Accepted? <==> MinLength <= Utf16Length(name) <= MaxLength && MatchesCharset(name)
  {
    var n := Utf16Length(name);
    if n < MinLength then Rejected(TooShort)
    else if n > MaxLength then Rejected(TooLong)
    else if !MatchesCharset(name) then Rejected(BadCharset)
    else Accepted
  }

  /** The `error` state each verdict leaves: cleared on acceptance. */
  function ErrorText(v: Verdict): (e: string)
    ensures e == "" <==> v.Accepted?
  {
    if v.Accepted? then "" else Message(v.reason)
  }

  /** An accepted name is made only of allowed characters, has 2 to 10 characters
      (every allowed character is one UTF-16 unit) and is never blank. */
  lemma AcceptedShape(name: string)
    requires Validate(name).Accepted?
    ensures MinLength <= |name| <= MaxLength
    ensures forall i :: 0 <= i < |name| ==> AllowedChar(name[i])
  {
    assert forall i :: 0 <= i < |name| ==> name[i] as int < 0x10000;
  }

  /** A single character of one UTF-16 unit is too short, even one outside the class.
      (A character outside the basic plane counts twice: see AstralCharacterCountsTwice.) */
  lemma TooShortBeforeCharset(c: char)
    requires c as int <= 0xFFFF
    ensures Validate([c]) == Rejected(TooShort)
  {
    assert Utf16Length([c]) == 1;
  }

  /** Length is measured in UTF-16 code units: one astral character counts as two,
      so it passes the length checks and fails the character class. */
  lemma AstralCharacterCountsTwice()
    ensures Validate("\U{1F600}") == Rejected(BadCharset)
  {
    assert Utf16Length("\U{1F600}") == 2;
    assert !AllowedChar('\U{1F600}');
  }

  /** Too long wins over a bad character. */
  lemma TooLongBeforeCharset()
    ensures Validate("hello_world") == Rejected(TooLong)
  {
    var name := "hello_world";
    assert forall i :: 0 <= i < |name| ==> name[i] as int <= 0xFFFF;
    assert Utf16Length(name) == 11;
  }

  /** A Hangul name of three syllables is accepted. */
  lemma HangulAccepted()
    ensures Validate("꿈돌이") == Accepted
  {
    var name := "꿈돌이";
    assert forall i :: 0 <= i < |name| ==> name[i] as int <= 0xFFFF;
    assert forall i :: 0 <= i < |name| ==> AllowedChar(name[i]);
  }

  /** A name a pending completion may carry: trimmed and accepted. */
  predicate Completable(name: string) {
    Validate(name).Accepted? && IsTrimmed(name)
  }

  class NicknameModal {
    var nickname: string
    var error: string
    var isSubmitting: bool
    /** Trimmed names whose delayed completion has been scheduled, oldest first. */
    var timers: seq<string>

    /** Every scheduled completion carries a trimmed, accepted name. */
    ghost predicate Valid()
      reads this
    {
      forall i :: 0 <= i < |timers| ==> Completable(timers[i])
    }

    constructor ()
      ensures Valid()
      ensures nickname == "" && error == "" && !isSubmitting && timers == []
    {
      nickname := "";
      error := "";
      isSubmitting := false;
      timers := [];
    }

    /** `handleInputChange`: stores the raw value; the error is cleared for blank input
        and otherwise reflects the verdict on the trimmed value. */
    method HandleInputChange(value: string)
      modifies this`nickname, this`error
      ensures nickname == value
      ensures IsBlank(value) ==> error == ""
      ensures !IsBlank(value) ==> error == ErrorText(Validate(Trim(value)))
    {
      nickname := value;
      TrimEmptyIffBlank(value);
      if Trim(value) != "" {
        error := ErrorText(Validate(Trim(value)));
      } else {
        error := "";
      }
    }

    /** `handleSubmit`: validates the trimmed name; only an accepted name starts
        submitting and schedules its completion. */
    method HandleSubmit()
      requires Valid()
      modifies this`error, this`isSubmitting, this`timers
      ensures Valid()
      ensures error == ErrorText(Validate(Trim(nickname)))
      ensures Validate(Trim(nickname)).Accepted? ==> isSubmitting && timers == old(timers) + [Trim(nickname)]
      ensures Validate(Trim(nickname)).Rejected? ==> isSubmitting == old(isSubmitting) && timers == old(timers)
    {
      var trimmed := Trim(nickname);
      var v := Validate(trimmed);
      error := ErrorText(v);
      if v.Accepted? {
        assert Completable(trimmed);
        isSubmitting := true;
        ghost var before := timers;
        timers := timers + [trimmed];
        assert forall i :: 0 <= i < |timers| ==> timers[i] == if i < |before| then before[i] else trimmed;
      }
    }

    /** `handleKeyPress`: Enter submits unless a submission is in progress. */
    method HandleKeyPress(key: string)
      requires Valid()
      modifies this`error, this`isSubmitting, this`timers
      ensures Valid()
      ensures (key != "Enter" || old(isSubmitting)) ==>
                error == old(error) && isSubmitting == old(isSubmitting) && timers == old(timers)
      ensures key == "Enter" && !old(isSubmitting) ==>
                error == ErrorText(Validate(Trim(nickname))) &&
                (Validate(Trim(nickname)).Accepted? ==> isSubmitting && timers == old(timers) + [Trim(nickname)]) &&
                (Validate(Trim(nickname)).Rejected? ==> !isSubmitting && timers == old(timers))
    {
      if key == "Enter" && !isSubmitting {
        HandleSubmit();
      }
    }

    /** The oldest scheduled timer fires: `onComplete` receives its name, which is
        trimmed and accepted, and submitting ends. */
    method CompleteSubmit() returns (completed: string)
      requires Valid() && timers != []
      modifies this`isSubmitting, this`timers
      ensures Valid()
      ensures completed == old(timers)[0] && timers == old(timers)[1..] && !isSubmitting
      ensures Validate(completed).Accepted? && IsTrimmed(completed)
    {
      assert Completable(timers[0]);
      completed := timers[0];
      timers := timers[1..];
      isSubmitting := false;
    }
  }
}
