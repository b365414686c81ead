/**
 * The nickname dialog (src/components/game/NicknameModal.tsx): a client-side check that
 * stops at the first failing rule, and the confirm handler that stores the nickname and
 * calls `onConfirm`.
 */
module NicknameModal {

  import opened Wrappers
  import opened LeaderboardTypes
  import opened GameStore

  const SHORT_MESSAGE := "닉네임은 2자 이상이어야 합니다"
  const LONG_MESSAGE := "닉네임은 12자 이하여야 합니다"
  const CHARSET_MESSAGE := "한글, 영문, 숫자만 사용 가능합니다"

  /** `validate`: the first failing rule's message, length first, or '' when all pass. */
  function Validate(value: string): (msg: string)
    ensures msg == "" <==> NicknameAccepted(value)
    ensures Utf16Length(value) < 2 ==> msg == SHORT_MESSAGE
    ensures Utf16Length(value) > 12 ==> msg == LONG_MESSAGE
    ensures 2 <= Utf16Length(value) <= 12 && !MatchesCharset(value) ==> msg == CHARSET_MESSAGE
    ensures msg in {"", SHORT_MESSAGE, LONG_MESSAGE, CHARSET_MESSAGE}
  {
    if Utf16Length(value) < 2 then SHORT_MESSAGE
    else if Utf16Length(value) > 12 then LONG_MESSAGE
    else if !MatchesCharset(value) then CHARSET_MESSAGE
    else ""
  }

  /** The client accepts exactly what the server's `NicknameSchema` accepts, and its one
      message is the first of the server's issues. */
  lemma ValidateAgreesWithServer(value: string)
    ensures Validate(value) == "" <==> ParseNickname(Some(JString(value))).Success?
    ensures Validate(value) != "" ==>
      var first := NicknameIssues(value)[0];
      (first == TooShort <==> Validate(value) == SHORT_MESSAGE)
      && (first == TooLong <==> Validate(value) == LONG_MESSAGE)
      && (first == BadCharacters <==> Validate(value) == CHARSET_MESSAGE)
  {
    if Validate(value) != "" {
      assert NicknameIssues(value) != [];
      if Utf16Length(value) < 2 { assert NicknameIssues(value)[0] == TooShort; }
      else if Utf16Length(value) > 12 { assert NicknameIssues(value)[0] == TooLong; }
      else { assert NicknameIssues(value) == [BadCharacters]; }
    }
  }

  /** Lengths are counted in code units: a character above U+FFFF on its own is long enough
      and fails only the character class, and eleven characters followed by one is thirteen
      units or more, too long. */
  lemma SupplementaryCharMessages(letters: string, c: char)
    requires c as int > 0xFFFF
    requires |letters| >= 11
    ensures Validate([c]) == CHARSET_MESSAGE
    ensures Validate(letters + [c]) == LONG_MESSAGE
  {
    assert Utf16Length([c]) == 2 by { assert [c][1..] == []; }
    assert !AllowedChar([c][0]);
    Utf16LengthAppend(letters, [c]);
  }

  class NicknameModal {
    const store: GameStore
    var input: string
    var error: string
    var confirmCalls: nat  // how many times `onConfirm` has been called

    /** `useState(nickname)` and `useState('')`. */
    constructor (store: GameStore)
      ensures this.store == store && input == store.nickname && error == "" && confirmCalls == 0
    {
      this.store := store;
      input := store.nickname;
      error := "";
      confirmCalls := 0;
    }

    /** The input's `onChange`: new text, error cleared. */
    method OnChange(value: string)
      modifies this`input, this`error
      ensures input == value && error == ""
    {
      input := value;
      error := "";
    }

    /** `handleConfirm`: an invalid input shows its message and goes no further; a valid one
        becomes the store's nickname and then `onConfirm` is called. */
    method HandleConfirm()
      modifies this`error, this`confirmCalls, store`nickname
      ensures input == old(input)
      ensures Validate(input) != "" ==>
        error == Validate(input) && store.nickname == old(store.nickname) && confirmCalls == old(confirmCalls)
      ensures Validate(input) == "" ==>
        error == old(error) && store.nickname == input && confirmCalls == old(confirmCalls) + 1
    {
      var err := Validate(input);
      if err != "" {
        error := err;
        return;
      }
      store.SetNickname(input);
      confirmCalls := confirmCalls + 1;
    }
  }
}
