/** The names of chats and messages, as the text they are stored under: each message ID says
    its scope, its chat and its place there, and nothing else has it. */
module MessageIds {
  const MAIN := "main"
  const TOP_LEVEL := "commitarium"

  predicate IsDigit(c: char) { '0' <= c <= '9' }

  predicate IsAlphanumeric(c: char) { IsDigit(c) || 'A' <= c <= 'Z' || 'a' <= c <= 'z' }

  predicate IsHex(c: char) { IsDigit(c) || 'a' <= c <= 'f' }

  // ^(commitarium|prj_[A-Za-z0-9]{1,64})$
  predicate IsScope(scope: string) {
    || scope == TOP_LEVEL
    || (5 <= |scope| <= 68 && scope[..4] == "prj_" && forall i :: 4 <= i < |scope| ==> IsAlphanumeric(scope[i]))
  }

  // ^(main|chat_[0-9a-f]{16})$
  predicate IsChat(chat: string) {
    || chat == MAIN
    || (|chat| == 21 && chat[..5] == "chat_" && forall i :: 5 <= i < 21 ==> IsHex(chat[i]))
  }

  function Decimal(n: nat): string {
    var digit := [('0' as int + n % 10) as char];
    if n < 10 then digit else Decimal(n / 10) + digit
  }

  function IdPart(scope: string, chat: string): string {
    if chat == "" || chat == MAIN then scope else scope + "_" + chat
  }

  function MessageId(scope: string, chat: string, index: nat): string {
    "msg_" + IdPart(scope, chat) + "_" + Decimal(index + 1)
  }

  lemma {:induction false} DecimalDigits(n: nat)
    ensures Decimal(n) != [] && forall i :: 0 <= i < |Decimal(n)| ==> IsDigit(Decimal(n)[i])
  {
    if n >= 10 {
      DecimalDigits(n / 10);
    }
  }

  lemma {:induction false} DecimalInjective(m: nat, n: nat)
    requires Decimal(m) == Decimal(n)
    ensures m == n
  {
    DecimalDigits(m / 10);
    DecimalDigits(n / 10);
    assert m % 10 == n % 10 by {
      assert Decimal(m)[|Decimal(m)| - 1] == Decimal(n)[|Decimal(n)| - 1];
    }
    if m >= 10 && n >= 10 {
      assert Decimal(m)[..|Decimal(m)| - 1] == Decimal(m / 10);
      assert Decimal(n)[..|Decimal(n)| - 1] == Decimal(n / 10);
      DecimalInjective(m / 10, n / 10);
    } else {
      assert |Decimal(m)| == 1 <==> m < 10;
      assert |Decimal(n)| == 1 <==> n < 10;
    }
  }

  lemma NoneAfterLast(p: string, x: string)
    requires '_' !in x
    ensures forall k :: |p| < k < |p + "_" + x| ==> (p + "_" + x)[k] != '_'
  {
    assert forall k :: |p| < k < |p + "_" + x| ==> (p + "_" + x)[k] == x[k - |p| - 1];
  }

  // Two texts split at their last underscore alike.
  lemma SplitAtLast(p: string, x: string, q: string, y: string)
    requires p + "_" + x == q + "_" + y && '_' !in x && '_' !in y
    ensures p == q && x == y
  {
    var s, t := p + "_" + x, q + "_" + y;
    assert s[|p|] == '_' && t[|q|] == '_';
    NoneAfterLast(p, x);
    NoneAfterLast(q, y);
    assert p == s[..|p|] && q == t[..|q|];
    assert x == s[|p| + 1..] && y == t[|q| + 1..];
  }

  // A chat other than main ends in hexadecimal digits after "_chat_".
  lemma NumberedIdPart(scope: string, chat: string)
    requires IsChat(chat) && chat != MAIN
    ensures IdPart(scope, chat) == scope + "_chat" + "_" + chat[5..] && '_' !in chat[5..]
  {
    assert chat == chat[..5] + chat[5..];
    assert "_" + "chat_" == "_chat" + "_";
  }

  lemma MainIdPart(scope: string)
    requires IsScope(scope) && scope != TOP_LEVEL
    ensures scope == "prj" + "_" + scope[4..] && '_' !in scope[4..]
  {
    assert scope == scope[..4] + scope[4..];
    assert "prj_" == "prj" + "_";
  }

  // The main chat's part of one scope is never the part of another scope's numbered chat.
  lemma MainApart(scope: string, other: string, chat: string)
    requires IsScope(scope) && IsScope(other) && IsChat(chat) && chat != MAIN
    ensures scope != IdPart(other, chat)
  {
    NumberedIdPart(other, chat);
    if scope == TOP_LEVEL {
      assert '_' !in scope;
      assert IdPart(other, chat)[|other|] == '_';
    } else if scope == IdPart(other, chat) {
      MainIdPart(scope);
      SplitAtLast("prj", scope[4..], other + "_chat", chat[5..]);
    }
  }

  lemma IdPartInjective(scope: string, chat: string, other: string, otherChat: string)
    requires IsScope(scope) && IsChat(chat) && IsScope(other) && IsChat(otherChat)
    requires IdPart(scope, chat) == IdPart(other, otherChat)
    ensures scope == other && chat == otherChat
  {
    if chat == MAIN && otherChat != MAIN {
      MainApart(scope, other, otherChat);
    } else if chat != MAIN && otherChat == MAIN {
      MainApart(other, scope, chat);
    } else if chat != MAIN {
      NumberedIdPart(scope, chat);
      NumberedIdPart(other, otherChat);
      SplitAtLast(scope + "_chat", chat[5..], other + "_chat", otherChat[5..]);
      assert scope == (scope + "_chat")[..|scope|] && other == (other + "_chat")[..|other|];
      assert chat == chat[..5] + chat[5..] && otherChat == otherChat[..5] + otherChat[5..];
    }
  }

  /** A message's ID says which scope and chat it was written in, and where there. */
  lemma MessageIdInjective(scope: string, chat: string, index: nat, other: string, otherChat: string, otherIndex: nat)
    requires IsScope(scope) && IsChat(chat) && IsScope(other) && IsChat(otherChat)
    ensures MessageId(scope, chat, index) == MessageId(other, otherChat, otherIndex) ==>
      scope == other && chat == otherChat && index == otherIndex
  {
    if MessageId(scope, chat, index) == MessageId(other, otherChat, otherIndex) {
      DecimalDigits(index + 1);
      DecimalDigits(otherIndex + 1);
      SplitAtLast("msg_" + IdPart(scope, chat), Decimal(index + 1), "msg_" + IdPart(other, otherChat), Decimal(otherIndex + 1));
      assert ("msg_" + IdPart(scope, chat))[4..] == IdPart(scope, chat);
      assert ("msg_" + IdPart(other, otherChat))[4..] == IdPart(other, otherChat);
      DecimalInjective(index + 1, otherIndex + 1);
      IdPartInjective(scope, chat, other, otherChat);
    }
  }

  // A number as its digits say it.
  function ValueOf(digits: string): int {
    if digits == "" then 0 else 10 * ValueOf(digits[..|digits| - 1]) + (digits[|digits| - 1] as int - '0' as int)
  }

  /** A place is written in digits, and read back from them. */
  lemma {:induction false} DecimalReads(n: nat)
    ensures ValueOf(Decimal(n)) == n && (n > 0 ==> Decimal(n)[0] != '0')
  {
    var digit := [('0' as int + n % 10) as char];
    if n < 10 {
      assert digit[..0] == "" && ValueOf("") == 0;
    } else {
      DecimalReads(n / 10);
      DecimalDigits(n / 10);
      assert Decimal(n)[..|Decimal(n)| - 1] == Decimal(n / 10);
    }
  }

  /** A message ID says the scope, then the chat unless it is main, which keeps the IDs of the single
      conversation it was, and then the place, counted from one. */
  lemma MessageIdSays(scope: string, chat: string, index: nat)
    ensures MessageId(scope, MAIN, index) == MessageId(scope, "", index) == "msg_" + scope + "_" + Decimal(index + 1)
    ensures chat != "" && chat != MAIN ==> MessageId(scope, chat, index) == "msg_" + (scope + "_" + chat) + "_" + Decimal(index + 1)
    ensures ValueOf(Decimal(index + 1)) == index + 1
  {
    DecimalReads(index + 1);
  }
}
