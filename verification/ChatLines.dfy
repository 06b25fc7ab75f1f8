/**
  * What the lines say that players get: who speaks, from which server and guild, and the text, each in its place. This
  * is said of the calls made, for the template a server has when its operator sets none.
  */
module ChatLines {
  import opened Text
  import opened Guids
  import opened Audience
  import opened Delivery
  import opened WordFilter
  import opened Sanitize
  import opened Injection
  import CT = ChatTemplates

  /** The operator's settings are plain: the default template, and prefixes without brackets, braces or odd blanks. */
  ghost predicate IsPlainSetup(config: Settings) {
    && config.chatFormat == CT.DEFAULT_FORMAT
    && CT.IsName(config.prefixNa) && CT.IsName(config.prefixEu) && CT.IsName(config.prefixDiscord)
    && CT.BraceFree(config.prefixNa) && CT.BraceFree(config.prefixEu) && CT.BraceFree(config.prefixDiscord)
  }

  /** The formatted line of a speaker with that prefix and guild. */
  ghost predicate Reads(line: Line, prefix: string, guild: string, name: string, text: string) {
    CT.IsTitle(line.sender, prefix, guild, name) && line.text == " " + text
  }

  /** A formatted line has the prefix of the server the message is from, and none if that is not one of the three. */
  ghost predicate IsTagged(config: Settings, origin: string, line: Line, guild: string, name: string, text: string) {
    && (origin == "pal-na" ==> Reads(line, config.prefixNa, guild, name, text))
    && (origin == "pal-eu" ==> Reads(line, config.prefixEu, guild, name, text))
    && (origin == "discord" ==> Reads(line, config.prefixDiscord, guild, name, text))
    && (origin != "pal-na" && origin != "pal-eu" && origin != "discord" ==> Reads(line, "", guild, name, text))
  }

  /**
    * A broadcast shows a message: without a uid as a formatted line, and under the uid of its sender as the bare name and
    * text. Names and guilds in it are plain.
    */
  ghost predicate ShowsMessage(config: Settings, origin: string, sender: string, guild: string, message: string,
                               uid: Option<Guid>, category: int, e: Event)
  {
    var name, cleanGuild := Sanitized(sender, NAME_LIMIT), Sanitized(guild, NAME_LIMIT);
    && e.Shown? && e.category == category
    && (e.line.uid == NIL && IsPlainSetup(config) && name != "" && CT.IsName(name)
        && CT.IsName(cleanGuild) && CT.BraceFree(cleanGuild) ==>
          IsTagged(config, origin, e.line, cleanGuild, name, Sanitized(message, MESSAGE_LIMIT)))
    && (e.line.uid != NIL ==>
          && uid == Some(e.line.uid) && e.line.text == Sanitized(message, MESSAGE_LIMIT)
          && e.line.sender == if name == "" then "Unknown" else name)
  }

  lemma FormattedReads(config: Settings, origin: string, prefix: string, sender: string, guild: string, message: string)
    requires config.chatFormat == CT.DEFAULT_FORMAT && CT.IsName(prefix) && CT.BraceFree(prefix)
    requires prefix == PrefixForOrigin(config, origin)
    requires Sanitized(sender, NAME_LIMIT) != "" && CT.IsName(Sanitized(sender, NAME_LIMIT))
    requires CT.IsName(Sanitized(guild, NAME_LIMIT)) && CT.BraceFree(Sanitized(guild, NAME_LIMIT))
    requires Sanitized(message, MESSAGE_LIMIT) != ""
    ensures Reads(FormattedLine(config, origin, sender, guild, message), prefix, Sanitized(guild, NAME_LIMIT),
                  Sanitized(sender, NAME_LIMIT), Sanitized(message, MESSAGE_LIMIT))
  {
    hide CT.IsTitle, CT.IsName;
    SanitizedIsClean(message, MESSAGE_LIMIT);
    CT.DefaultLine(prefix, Sanitized(guild, NAME_LIMIT), Sanitized(sender, NAME_LIMIT));
    CT.DefaultMessage(Sanitized(message, MESSAGE_LIMIT));
  }

  lemma FormattedIsTagged(config: Settings, origin: string, sender: string, guild: string, message: string)
    requires IsPlainSetup(config)
    requires Sanitized(sender, NAME_LIMIT) != "" && CT.IsName(Sanitized(sender, NAME_LIMIT))
    requires CT.IsName(Sanitized(guild, NAME_LIMIT)) && CT.BraceFree(Sanitized(guild, NAME_LIMIT))
    requires Sanitized(message, MESSAGE_LIMIT) != ""
    ensures IsTagged(config, origin, FormattedLine(config, origin, sender, guild, message), Sanitized(guild, NAME_LIMIT),
                     Sanitized(sender, NAME_LIMIT), Sanitized(message, MESSAGE_LIMIT))
  {
    hide FormattedLine, Reads, Sanitized;
    NothingIsAName();
    FormattedReads(config, origin, PrefixForOrigin(config, origin), sender, guild, message);
  }

  lemma NothingIsAName()
    ensures CT.IsName("") && CT.BraceFree("")
  {
  }

  /** A call shows the formatted line, or the plain one under the uid of a sender who is known. */
  lemma CallIsOneOfTwo(key: Printer, view: View, formatted: Line, plain: (string, string), uid: Option<Guid>,
                       category: int, at: int, outs: seq<Outcome>, shown: seq<Event>, e: Event)
    requires Delivered(key, view, formatted, plain, uid, category, at, outs, shown) && e in shown
    ensures e.Shown? && e.category == category
    ensures e.line == formatted || (uid.Some? && uid.value != NIL && e.line == Line(plain.0, plain.1, uid.value))
  {
    hide Issued;
    var attributed := Line(plain.0, plain.1, UidOf(uid));
    IssuedFromPosts(Posts(view.xbox, view.others, formatted, attributed, IsLocal(key, view, uid)), outs, category, at, e);
  }

  /** All calls made for a delivered message show it. */
  lemma DeliveredShows(env: Env, view: View, origin: string, sender: string, guild: string, message: string,
                       uid: Option<Guid>, category: int, at: int, outs: seq<Outcome>, shown: seq<Event>, e: Event)
    requires Sanitized(message, MESSAGE_LIMIT) != "" && e in shown
    requires Delivered(env.key, view, FormattedLine(env.config, origin, sender, guild, message),
                       (CleanName(sender), Sanitized(message, MESSAGE_LIMIT)), uid, category, at, outs, shown)
    ensures ShowsMessage(env.config, origin, sender, guild, message, uid, category, e)
  {
    hide Delivered, Sanitized, IsTagged, IsPlainSetup, CT.IsName, CT.BraceFree, PrefixForOrigin;
    CallIsOneOfTwo(env.key, view, FormattedLine(env.config, origin, sender, guild, message),
                   (CleanName(sender), Sanitized(message, MESSAGE_LIMIT)), uid, category, at, outs, shown, e);
    if e.line.uid == NIL && IsPlainSetup(env.config) && Sanitized(sender, NAME_LIMIT) != ""
       && CT.IsName(Sanitized(sender, NAME_LIMIT)) && CT.IsName(Sanitized(guild, NAME_LIMIT))
       && CT.BraceFree(Sanitized(guild, NAME_LIMIT)) {
      FormattedIsTagged(env.config, origin, sender, guild, message);
    }
  }

  /** The calls for a row show the row; there is none if nothing is left of its text or a pattern matches it. */
  ghost predicate ShowsRow(env: Env, d: Deed, e: Event)
    requires d.Tried?
  {
    var m := d.row.message;
    && Sanitized(m.text, MESSAGE_LIMIT) != "" && !Matched(env.filter.patterns, env.filter.search, Sanitized(m.text, MESSAGE_LIMIT))
    && ShowsMessage(env.config, d.row.origin, m.sender, m.guild, m.text, Parse(m.senderId), env.config.injectCategory, e)
  }

  lemma RowIsShown(env: Env, d: Deed, e: Event)
    requires d.Tried? && RowOk(env, d) && e in d.shown
    ensures ShowsRow(env, d, e)
  {
    hide ShowsMessage, Delivered;
    var m := d.row.message;
    assert !IsDropped(env.filter, d.row);
    DeliveredShows(env, d.view, d.row.origin, m.sender, m.guild, m.text, Parse(m.senderId), env.config.injectCategory,
                   d.at, d.outs, d.shown, e);
  }

  lemma RowIsShownByAll(env: Env, d: Deed)
    requires d.Tried? && RowOk(env, d)
    ensures forall e :: e in d.shown ==> ShowsRow(env, d, e)
  {
    forall e | e in d.shown
      ensures ShowsRow(env, d, e)
    {
      RowIsShown(env, d, e);
    }
  }

  /** The calls for an action: a local line with the tag of this server, a notice, a log line or a private line. */
  ghost predicate ShowsAction(env: Env, d: Deed, e: Event)
    requires d.Performed?
  {
    match d.action
    case LocalTagged(sender, guild, message, category, uid) =>
      ShowsMessage(env.config, env.config.serverOrigin, sender, guild, message, if uid == NIL then None else Some(uid),
                   category, e)
    case ServerNotice(notice) => e.Noticed? && e.text == NoticeText(notice, MESSAGE_LIMIT)
    case ScreenLog(controller, log) =>
      e.Logged? && e.controller == controller && e.text == NoticeText(log, MESSAGE_LIMIT)
    case PrivateChat(receiver, chat) =>
      e.Shown? && e.targets == [receiver] && e.line == Line("PalCrosschat", chat, NIL) && e.category == GLOBAL
  }

  lemma ActionIsShown(env: Env, d: Deed, e: Event)
    requires d.Performed? && ActionOk(env, d) && e in d.shown
    ensures ShowsAction(env, d, e)
  {
    hide ShowsMessage, Delivered, NoticeText;
    match d.action
    case LocalTagged(sender, guild, message, category, uid) =>
      DeliveredShows(env, d.view, env.config.serverOrigin, sender, guild, message, if uid == NIL then None else Some(uid),
                     category, d.at, d.outs, d.shown, e);
    case PrivateChat(receiver, chat) =>
      IssuedFromPosts([PrivatePost(receiver, chat)], d.outs, GLOBAL, d.at, e);
    case _ =>
  }
}
