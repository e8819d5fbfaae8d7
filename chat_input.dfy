/** The message input box: the blank-submission guard and the text insertion used by "reply". */
module Input {
  import opened Wrappers

  /** The characters JavaScript's `String.prototype.trim` removes: white space and line terminators. */
  predicate IsTrimmed(c: char)
  {
    || c == '\t' || c == '\n' || c == '\U{000B}' || c == '\U{000C}' || c == '\r' || c == ' '
    || c == '\U{00A0}' || c == '\U{1680}' || ('\U{2000}' <= c <= '\U{200A}')
    || c == '\U{2028}' || c == '\U{2029}' || c == '\U{202F}' || c == '\U{205F}'
    || c == '\U{3000}' || c == '\U{FEFF}'
  }

  /** `s` without its leading trimmed characters. */
  function TrimStart(s: string): (r: string)
    ensures |r| <= |s| && r == s[|s| - |r|..]
    ensures forall i :: 0 <= i < |s| - |r| ==> IsTrimmed(s[i])
    ensures r == [] || !IsTrimmed(r[0])
  {
    if s != [] && IsTrimmed(s[0]) then TrimStart(s[1..]) else s
  }

  /** `s` without its trailing trimmed characters. */
  function TrimEnd(s: string): (r: string)
    ensures |r| <= |s| && r == s[..|r|]
    ensures forall i :: |r| <= i < |s| ==> IsTrimmed(s[i])
    ensures r == [] || !IsTrimmed(r[|r| - 1])
  {
    if s != [] && IsTrimmed(s[|s| - 1]) then TrimEnd(s[..|s| - 1]) else s
  }

  /** `s.trim()`. */
  function Trim(s: string): (r: string)
  {
    TrimEnd(TrimStart(s))
  }

  /** The trimmed text is empty exactly when every character of the text is trimmed. */
  lemma TrimEmptyIff(s: string)
    ensures Trim(s) == [] <==> forall i :: 0 <= i < |s| ==> IsTrimmed(s[i])
  {
  }

  class ChatInput {
    /** The text in the input box. */
    var value: string

    constructor ()
      ensures value == []
    {
      value := [];
    }

    /** Puts `text` and a line break in front of the current input. */
    method InsertText(text: string)
      modifies this
      ensures value == text + "\n" + old(value)
    {
      value := text + "\n" + value;
    }

    /**
     * A submission. Input that is blank after trimming is ignored; otherwise the input is sent
     * exactly as typed, untrimmed, and the box is cleared.
     */
    method HandleSubmit() returns (sent: Option<string>)
      modifies this
      ensures Trim(old(value)) == [] ==> sent == None && value == old(value)
      ensures Trim(old(value)) != [] ==> sent == Some(old(value)) && value == []
    {
      if Trim(value) == [] {
        sent := None;
      } else {
        sent := Some(value);
        value := [];
      }
    }
  }

  /** A submission is sent exactly when the input holds a character that trimming does not remove. */
  method SubmitSendsIff(box: ChatInput) returns (sent: Option<string>)
    modifies box
    ensures sent.Some? <==> exists i :: 0 <= i < |old(box.value)| && !IsTrimmed(old(box.value)[i])
  {
    TrimEmptyIff(box.value);
    sent := box.HandleSubmit();
  }
}
