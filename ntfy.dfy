/**
 * The ntfy notification builder (`common/src/utils/ntfy.rs`). Its methods
 * take the message by value, set a field and hand it back, so here each
 * is a function from the old message to the new one. Sending is not
 * modelled.
 */
module Ntfy {
  import opened Wrappers

  /** A button on the notification. */
  datatype NtfyAction = NtfyAction(action: string, caption: string, url: string, httpMethod: Option<string>,
                                   headers: Option<map<string, string>>, body: Option<string>, clear: Option<bool>)

  /** `NtfyAction::new`: every text empty, every option absent. */
  function NewAction(): (a: NtfyAction)
    ensures a.action == "" && a.caption == "" && a.url == ""
    ensures a.httpMethod.None? && a.headers.None? && a.body.None? && a.clear.None?
  {
    NtfyAction("", "", "", None, None, None, None)
  }

  /** `view_action`: a "view" button; whatever request it described before is dropped. */
  function ViewAction(a: NtfyAction, caption: string, url: string): (r: NtfyAction)
    ensures r.action == "view" && r.caption == caption && r.url == url
    ensures r.httpMethod.None? && r.headers.None? && r.body.None? && r.clear.None?
  {
    a.(action := "view", caption := caption, url := url, httpMethod := None, headers := None, body := None, clear := None)
  }

  /** `http_action`: an "http" button sending the given request. */
  function HttpAction(a: NtfyAction, caption: string, url: string, httpMethod: string, headers: map<string, string>,
                      body: string): (r: NtfyAction)
    ensures r.action == "http" && r.caption == caption && r.url == url
    ensures r.httpMethod == Some(httpMethod) && r.headers == Some(headers) && r.body == Some(body) && r.clear.None?
  {
    a.(action := "http", caption := caption, url := url, httpMethod := Some(httpMethod), headers := Some(headers),
       body := Some(body), clear := None)
  }

  /** Turning a button into a view or an http button forgets what it was: the result depends only on the new arguments. */
  lemma ActionsForgetTheirPast(a: NtfyAction, b: NtfyAction, caption: string, url: string, httpMethod: string,
                               headers: map<string, string>, body: string)
    ensures ViewAction(a, caption, url) == ViewAction(b, caption, url)
    ensures HttpAction(a, caption, url, httpMethod, headers, body) == HttpAction(b, caption, url, httpMethod, headers, body)
  {
  }

  /** `NtfyMessage`: the JSON body posted to the ntfy server. */
  datatype NtfyMessage = NtfyMessage(
    topic: string, message: Option<string>, title: Option<string>, tags: Option<seq<string>>,
    priority: Option<int>, actions: Option<seq<NtfyAction>>, click: Option<string>, attach: Option<string>,
    markdown: Option<bool>, icon: Option<string>, filename: Option<string>, delay: Option<string>,
    email: Option<string>, call: Option<string>)

  /** Priorities run from 1, the lowest, to 5, the highest. */
  predicate ValidPriority(m: NtfyMessage)
  {
    m.priority.None? || 1 <= m.priority.value <= 5
  }

  /** `NtfyMessage::new`: the topic and nothing else. */
  function New(topic: string): (m: NtfyMessage)
    ensures m.topic == topic && ValidPriority(m)
    ensures m.message.None? && m.title.None? && m.tags.None? && m.priority.None? && m.actions.None?
    ensures m.click.None? && m.attach.None? && m.markdown.None? && m.icon.None? && m.filename.None?
    ensures m.delay.None? && m.email.None? && m.call.None?
  {
    NtfyMessage(topic, None, None, None, None, None, None, None, None, None, None, None, None, None)
  }

  function Message(m: NtfyMessage, message: string): (r: NtfyMessage)
    ensures r.message == Some(message) && r.(message := m.message) == m
  {
    m.(message := Some(message))
  }

  function Title(m: NtfyMessage, title: string): (r: NtfyMessage)
    ensures r.title == Some(title) && r.(title := m.title) == m
  {
    m.(title := Some(title))
  }

  /** The tags so far, an absent list read as empty. */
  function TagList(m: NtfyMessage): seq<string>
  {
    m.tags.GetOr([])
  }

  /** `add_tag`: the tag goes at the end of the list, which is created when absent. */
  function AddTag(m: NtfyMessage, tag: string): (r: NtfyMessage)
    ensures r.tags.Some? && TagList(r) == TagList(m) + [tag]
    ensures r.(tags := m.tags) == m
  {
    match m.tags
    case Some(ts) => m.(tags := Some(ts + [tag]))
    case None => m.(tags := Some([tag]))
  }

  /** `tags`: the whole list replaced. */
  function Tags(m: NtfyMessage, tags: seq<string>): (r: NtfyMessage)
    ensures r.tags == Some(tags) && r.(tags := m.tags) == m
  {
    m.(tags := Some(tags))
  }

  /** `priority`: taken only when it is from 1 to 5; any other value leaves the priority as it was. */
  function Priority(m: NtfyMessage, priority: int): (r: NtfyMessage)
    ensures 1 <= priority <= 5 ==> r.priority == Some(priority)
    ensures !(1 <= priority <= 5) ==> r == m
    ensures r.(priority := m.priority) == m
    ensures ValidPriority(m) ==> ValidPriority(r)
  {
    if priority >= 1 && priority <= 5 then m.(priority := Some(priority)) else m
  }

  /** The buttons so far, an absent list read as empty. */
  function ActionList(m: NtfyMessage): seq<NtfyAction>
  {
    m.actions.GetOr([])
  }

  /** `add_action`: the button goes at the end of the list, which is created when absent. */
  function AddAction(m: NtfyMessage, action: NtfyAction): (r: NtfyMessage)
    ensures r.actions.Some? && ActionList(r) == ActionList(m) + [action]
    ensures r.(actions := m.actions) == m
  {
    match m.actions
    case Some(acts) => m.(actions := Some(acts + [action]))
    case None => m.(actions := Some([action]))
  }

  function Click(m: NtfyMessage, url: string): (r: NtfyMessage)
    ensures r.click == Some(url) && r.(click := m.click) == m
  {
    m.(click := Some(url))
  }

  function Attach(m: NtfyMessage, url: string): (r: NtfyMessage)
    ensures r.attach == Some(url) && r.(attach := m.attach) == m
  {
    m.(attach := Some(url))
  }

  function WithMarkdown(m: NtfyMessage): (r: NtfyMessage)
    ensures r.markdown == Some(true) && r.(markdown := m.markdown) == m
  {
    m.(markdown := Some(true))
  }

  function Icon(m: NtfyMessage, url: string): (r: NtfyMessage)
    ensures r.icon == Some(url) && r.(icon := m.icon) == m
  {
    m.(icon := Some(url))
  }

  function Filename(m: NtfyMessage, name: string): (r: NtfyMessage)
    ensures r.filename == Some(name) && r.(filename := m.filename) == m
  {
    m.(filename := Some(name))
  }

  function Delay(m: NtfyMessage, delay: string): (r: NtfyMessage)
    ensures r.delay == Some(delay) && r.(delay := m.delay) == m
  {
    m.(delay := Some(delay))
  }

  function Email(m: NtfyMessage, email: string): (r: NtfyMessage)
    ensures r.email == Some(email) && r.(email := m.email) == m
  {
    m.(email := Some(email))
  }

  function Call(m: NtfyMessage, number: string): (r: NtfyMessage)
    ensures r.call == Some(number) && r.(call := m.call) == m
  {
    m.(call := Some(number))
  }

  /** Tags added one after another come out in the order they were added, after the earlier ones. */
  lemma {:induction false} TagsInOrder(m: NtfyMessage, tags: seq<string>)
    ensures TagList(AddTags(m, tags)) == TagList(m) + tags
    ensures AddTags(m, tags).(tags := m.tags) == m
  {
    if tags != [] {
      TagsInOrder(m, tags[..|tags| - 1]);
      assert TagList(m) + tags[..|tags| - 1] + [tags[|tags| - 1]] == TagList(m) + tags;
    }
  }

  /** `add_tag` applied to each tag in turn. */
  function AddTags(m: NtfyMessage, tags: seq<string>): NtfyMessage
  {
    if tags == [] then m else AddTag(AddTags(m, tags[..|tags| - 1]), tags[|tags| - 1])
  }

  /** What every preset builds: the topic, title and message, one tag and a priority. */
  function Preset(topic: string, title: string, message: string, tag: string, priority: int): NtfyMessage
  {
    Priority(AddTag(Message(Title(New(topic), title), message), tag), priority)
  }

  /** A preset is a fresh message with exactly the title, message, single tag and (valid) priority given. */
  lemma PresetShape(topic: string, title: string, message: string, tag: string, priority: int)
    requires 1 <= priority <= 5
    ensures Preset(topic, title, message, tag, priority)
         == New(topic).(title := Some(title), message := Some(message), tags := Some([tag]), priority := Some(priority))
  {
  }

  /** `warning_message`: tagged "warning", priority 4. */
  function WarningMessage(topic: string, title: string, message: string): (r: NtfyMessage)
    ensures r == New(topic).(title := Some(title), message := Some(message), tags := Some(["warning"]), priority := Some(4))
  {
    PresetShape(topic, title, message, "warning", 4);
    Preset(topic, title, message, "warning", 4)
  }

  /** `success_message`: tagged "white_check_mark", priority 3. */
  function SuccessMessage(topic: string, title: string, message: string): (r: NtfyMessage)
    ensures r == New(topic).(title := Some(title), message := Some(message), tags := Some(["white_check_mark"]), priority := Some(3))
  {
    PresetShape(topic, title, message, "white_check_mark", 3);
    Preset(topic, title, message, "white_check_mark", 3)
  }

  /** `error_message`: tagged "rotating_light", priority 5. */
  function ErrorMessage(topic: string, title: string, message: string): (r: NtfyMessage)
    ensures r == New(topic).(title := Some(title), message := Some(message), tags := Some(["rotating_light"]), priority := Some(5))
  {
    PresetShape(topic, title, message, "rotating_light", 5);
    Preset(topic, title, message, "rotating_light", 5)
  }

  /** `info_message`: tagged "information", priority 3. */
  function InfoMessage(topic: string, title: string, message: string): (r: NtfyMessage)
    ensures r == New(topic).(title := Some(title), message := Some(message), tags := Some(["information"]), priority := Some(3))
  {
    PresetShape(topic, title, message, "information", 3);
    Preset(topic, title, message, "information", 3)
  }
}
