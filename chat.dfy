/** The family chat page: a message log, the input box, sending a message as
    the signed-in user, the last-message preview and the own-message test. */
module Chat {
  import opened Js
  import Auth

  /** One chat message; `timestamp` is the send time in milliseconds and
      `avatar` is optional. */
  datatype Message = Message(
    id: string,
    text: string,
    senderId: string,
    senderName: string,
    timestamp: nat,
    avatar: Option<string>)

  /** The preview shown when there is nothing to show. */
  const NoMessagesPreview: string := "대화가 없습니다."

  /** `messages[messages.length - 1]?.text || '대화가 없습니다.'`: the last
      message's text, or the placeholder when there is no message or the last
      text is empty. The preview is never empty. */
  function Preview(messages: seq<Message>): (r: string)
    ensures r != []
    ensures messages == [] ==> r == NoMessagesPreview
    ensures messages != [] && messages[|messages| - 1].text != [] ==> r == messages[|messages| - 1].text
    ensures messages != [] && messages[|messages| - 1].text == [] ==> r == NoMessagesPreview
  {
    if messages != [] && messages[|messages| - 1].text != "" then messages[|messages| - 1].text
    else NoMessagesPreview
  }

  /** `msg.senderId === user?.id`: with nobody signed in no message is own. */
  predicate IsOwn(msg: Message, user: Option<Auth.User>)
    ensures user.None? ==> !IsOwn(msg, user)
    ensures IsOwn(msg, user) ==> user.Some? && msg.senderId == user.value.id
    ensures user.Some? && msg.senderId == user.value.id ==> IsOwn(msg, user)
  {
    user.Some? && msg.senderId == user.value.id
  }

  /** The message `handleSend` builds from the input and the signed-in user;
      `now` is the `Date.now()` reading the id is printed from and `sentAt`
      the `new Date()` reading. */
  function Compose(text: string, user: Auth.User, now: nat, sentAt: nat): (m: Message)
    ensures m.text == text && m.timestamp == sentAt
    ensures m.senderId == user.id && m.senderName == user.name && m.avatar == user.avatar
    ensures IsOwn(m, Some(user))
    ensures m.id == DecimalString(now) && m.id != []
  {
    Message(DecimalString(now), text, user.id, user.name, sentAt, user.avatar)
  }

  /** A message sent by `u` is own for `u`, and for anybody else signed in only
      when they share `u`'s id. */
  lemma ComposedIsOwn(text: string, u: Auth.User, now: nat, sentAt: nat, viewer: Option<Auth.User>)
    ensures IsOwn(Compose(text, u, now, sentAt), Some(u))
    ensures !IsOwn(Compose(text, u, now, sentAt), None)
    ensures IsOwn(Compose(text, u, now, sentAt), viewer) <==> viewer.Some? && viewer.value.id == u.id
  {
  }

  /** After a message with non-empty text is appended, the preview is that
      text (a sent message is never blank, so this covers every send). */
  lemma PreviewAfterSend(messages: seq<Message>, m: Message)
    requires m.text != ""
    ensures Preview(messages + [m]) == m.text
  {
  }

  /** What a successful send leaves behind: the new last message is own for
      its sender and its text is the preview. */
  lemma SendOutcome(messages: seq<Message>, text: string, u: Auth.User, now: nat, sentAt: nat)
    requires Trim(text) != ""
    ensures var ms := messages + [Compose(text, u, now, sentAt)];
            Preview(ms) == text && IsOwn(ms[|ms| - 1], Some(u))
  {
    assert |Trim(text)| <= |text|;
    PreviewAfterSend(messages, Compose(text, u, now, sentAt));
  }

  /** Messages sent at distinct `Date.now()` readings get distinct ids. */
  lemma ComposedIdsDiffer(t1: string, t2: string, u1: Auth.User, u2: Auth.User, n1: nat, n2: nat, s1: nat, s2: nat)
    requires n1 != n2
    ensures Compose(t1, u1, n1, s1).id != Compose(t2, u2, n2, s2).id
  {
    DecimalStringInjective(n1, n2);
  }

  /** The page's state slots: the message log and the input box. */
  class ChatPage {
    var messages: seq<Message>
    var inputText: string

    constructor ()
      ensures messages == [] && inputText == ""
    {
      messages := [];
      inputText := "";
    }

    /** Typing into the input box. */
    method EditInput(text: string)
      modifies this
      ensures inputText == text && messages == old(messages)
    {
      inputText := text;
    }

    /** `handleSend` (without the simulated reply): with blank input or nobody
        signed in nothing changes; otherwise the composed message is appended
        after the earlier ones, the preview becomes its text, and the input
        is cleared. */
    method HandleSend(user: Option<Auth.User>, now: nat, sentAt: nat)
      modifies this
      ensures Trim(old(inputText)) == "" || user.None? ==>
                messages == old(messages) && inputText == old(inputText)
      ensures Trim(old(inputText)) != "" && user.Some? ==>
                && messages == old(messages) + [Compose(old(inputText), user.value, now, sentAt)]
                && inputText == ""
                && Preview(messages) == old(inputText)
                && IsOwn(messages[|messages| - 1], user)
    {
      if Trim(inputText) == "" || user.None? {
        return;
      }
      SendOutcome(messages, inputText, user.value, now, sentAt);
      messages := messages + [Compose(inputText, user.value, now, sentAt)];
      inputText := "";
    }
  }
}
