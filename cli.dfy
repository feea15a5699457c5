/** pullover-cli.py: the callback that turns a delivered message into a desktop notification. */
module PulloverCli {
  import opened Protocol

  /** The title and body handed to `Notify.Notification.new`. */
  datatype Notification = Notification(title: string, body: string)

  /** `msg.get(key, default)` on the message's text-valued keys. */
  function Get(msg: Message, key: string, default: string): string {
    if key in msg.text then msg.text[key] else default
  }

  /** Python truthiness of a string: only the empty string is false. */
  predicate Truthy(s: string) {
    s != ""
  }

  /** `notify_send`: the title is the message's title when that is present and non-empty,
      else its app name, else empty; the body is its text (empty when absent), followed by
      ` [url]` when the message carries a url. */
  function NotifySend(msg: Message): (n: Notification)
    ensures Truthy(Get(msg, "title", "")) ==> n.title == msg.text["title"]
    ensures !Truthy(Get(msg, "title", "")) ==> n.title == Get(msg, "app", "")
    ensures n.title == "" <==> !Truthy(Get(msg, "title", "")) && !Truthy(Get(msg, "app", ""))
    ensures Get(msg, "message", "") <= n.body
    ensures n.body == Get(msg, "message", "") <==> "url" !in msg.text
    ensures "url" in msg.text ==> |n.body| == |Get(msg, "message", "")| + |msg.text["url"]| + 3
  {
    var title := Get(msg, "title", "");
    var body := Get(msg, "message", "");
    Notification(if Truthy(title) then title else Get(msg, "app", ""),
                 if "url" in msg.text then body + " [" + msg.text["url"] + "]" else body)
  }

  /** The url can be read back out of the body: it sits between the ` [` that follows the
      message text and the closing `]`. */
  lemma UrlRecoverable(msg: Message)
    requires "url" in msg.text
    ensures var n := NotifySend(msg); var k := |Get(msg, "message", "")|;
      && n.body[k..k + 2] == " ["
      && n.body[k + 2..|n.body| - 1] == msg.text["url"]
      && n.body[|n.body| - 1] == ']'
  {
  }

  /** The notification depends on the keys title, app, message and url only. */
  lemma ReadsOnlyItsKeys(m1: Message, m2: Message)
    requires forall k :: k in {"title", "app", "message", "url"} ==>
      (k in m1.text <==> k in m2.text) && (k in m1.text ==> m1.text[k] == m2.text[k])
    ensures NotifySend(m1) == NotifySend(m2)
  {
  }
}
