/**
 * The canonical chat message and its construction from a raw row of the
 * WeChat v3 MSG table (MessageV3.Wrap), and its rendering as a transcript
 * entry (Message.PlainText).
 *
 * The collaborators message.go calls into but does not define are taken as
 * parameters: LZ4 decompression, the Protocol Buffers decoder of the
 * BytesExtra column, the media parser, the textual form of a media
 * description, and the timestamp formatter.
 */
module Messages {
  import opened Wrappers
  import opened GoStrings
  import opened BytesExtra
  import opened Media

  /** Version tag naming the adapter that produced a message. */
  const WeChatV3 := "wechatv3"

  /** A talker identifier ending with this marker names a group chat. */
  const ChatRoomSuffix := "@chatroom"
  /** The speaker label of a message the account owner sent ("me"). */
  const SelfLabel := "我"

  /** Message type codes that Wrap branches on. */
  const TextType := 1
  const VideoType := 43
  const AppType := 49

  /** BytesExtra tags that Wrap reads. */
  const SenderTag := 1
  const VideoPathTag := 4

  /** A raw row of the v3 MSG table, restricted to the columns Wrap reads. */
  datatype MessageV3 = MessageV3(
    Sequence: int,
    CreateTime: int,
    TalkerID: int,
    StrTalker: string,
    IsSender: int,
    Type: int,
    SubType: int,
    StrContent: string,
    CompressContent: seq<uint8>,
    BytesExtra: seq<uint8>)

  /**
   * The code Wrap calls but message.go does not define.
   *   decompress: lz4.Decompress followed by the conversion of its bytes to a
   *               string; None when decompression fails.
   *   unmarshal:  proto.Unmarshal into the BytesExtra message; None on a
   *               decoding error, otherwise its items in encoded order.
   *   newMedia:   NewMediaMessage's parser; None when it fails.
   *   separator:  the platform's path separator, for filepath.ToSlash.
   */
  datatype Collaborators = Collaborators(
    decompress: seq<uint8> -> Option<string>,
    unmarshal: seq<uint8> -> Option<seq<Item>>,
    newMedia: (int, string) -> Option<MediaView>,
    separator: char)

  class Message {
    var Sequence: int
    var CreateTime: int        // epoch seconds
    var TalkerID: int
    var Talker: string
    var IsSender: int
    var Type: int
    var SubType: int
    var Content: string
    var CompressContent: seq<uint8>
    var IsChatRoom: bool
    var ChatRoomSender: string
    var DisplayName: string
    var ChatRoomName: string
    var MediaMessage: MediaMessage?
    var Version: string

    /** The composite literal that starts MessageV3.Wrap: copied columns, the version tag, zero values elsewhere. */
    constructor FromV3(row: MessageV3)
      ensures Sequence == row.Sequence && CreateTime == row.CreateTime && TalkerID == row.TalkerID
      ensures Talker == row.StrTalker && IsSender == row.IsSender
      ensures Type == row.Type && SubType == row.SubType
      ensures Content == row.StrContent && CompressContent == row.CompressContent
      ensures Version == WeChatV3
      ensures !IsChatRoom && ChatRoomSender == "" && DisplayName == "" && ChatRoomName == ""
      ensures MediaMessage == null
    {
      Sequence, CreateTime, TalkerID := row.Sequence, row.CreateTime, row.TalkerID;
      Talker, IsSender := row.StrTalker, row.IsSender;
      Type, SubType := row.Type, row.SubType;
      Content, CompressContent := row.StrContent, row.CompressContent;
      Version := WeChatV3;
      IsChatRoom, ChatRoomSender := false, "";
      DisplayName, ChatRoomName := "", "";
      MediaMessage := null;
    }

    /**
     * PlainText: the transcript entry of this message. Binds `host` into the
     * media description, if any, before asking for its textual form.
     */
    method PlainText(showChatRoom: bool, host: string, formatTime: int -> string, describe: MediaView -> string)
      returns (text: string)
      modifies MediaMessage
      ensures MediaMessage != null ==> MediaMessage.View() == old(MediaMessage.View()).(host := host)
      ensures text == Transcript(this, showChatRoom, formatTime(CreateTime),
                                 if MediaMessage != null then describe(MediaMessage.View()) else Content)
    {
      var buf := "";
      var talker := Talker;
      if IsSender == 1 {
        talker := SelfLabel;
      } else if IsChatRoom {
        talker := ChatRoomSender;
      }
      if DisplayName != "" {
        buf := buf + DisplayName + "(" + talker + ")";
        assert buf == DisplayName + "(" + talker + ")";
      } else {
        buf := buf + talker;
        assert buf == talker;
      }
      buf := buf + " ";
      assert buf == Speaker(this) + " ";
      ghost var head := buf;

      if IsChatRoom && showChatRoom {
        buf := buf + "[";
        if ChatRoomName != "" {
          buf := buf + ChatRoomName + "(" + Talker + ")";
          assert buf == head + ("[" + (ChatRoomName + "(" + Talker + ")"));
        } else {
          buf := buf + Talker;
        }
        buf := buf + "] ";
      }
      assert buf == head + RoomTag(this, showChatRoom);

      buf := buf + formatTime(CreateTime) + "\n";

      if MediaMessage != null {
        MediaMessage.SetHost(host);
        buf := buf + describe(MediaMessage.View());
      } else {
        buf := buf + Content;
      }

      buf := buf + "\n";
      assert buf == Transcript(this, showChatRoom, formatTime(CreateTime),
                               if MediaMessage != null then describe(MediaMessage.View()) else Content);
      text := buf;
    }
  }

  /** Go's lookup in a map[int]string: the zero value "" for an absent key. */
  function Lookup(m: map<int, string>, key: int): (v: string)
    ensures key in m ==> v == m[key]
    ensures v != "" ==> key in m && m[key] == v
  {
    if key in m then m[key] else ""
  }

  /**
   * The resolved path of a video: separators made '/', then the leading
   * segment dropped. It agrees with the code's own steps, which keep the raw
   * path, not its slash form, when the split gives a single piece: then the
   * two are the same, since any separator would have made a second piece.
   */
  function VideoPath(raw: string, separator: char): (r: string)
    ensures var parts := Split(ToSlash(raw, separator), '/');
      r == if |parts| > 1 then Join(parts[1..], '/') else raw
  {
    var t := ToSlash(raw, separator);
    assert '/' !in t ==> t == raw by {
      if '/' !in t {
        forall i | 0 <= i < |raw| ensures t[i] == raw[i] {
          assert t[i] in t;
        }
      }
    }
    StripFirstSegment(t)
  }

  /** Content after the decompression step: the decompressed text for type 49 when it decompresses. */
  function DecodedContent(row: MessageV3, ops: Collaborators): string
  {
    if row.Type == AppType && ops.decompress(row.CompressContent).Some? then
      ops.decompress(row.CompressContent).value
    else
      row.StrContent
  }

  /** The metadata items Wrap uses: present when BytesExtra is non-empty and decodes to at least one item. */
  function Metadata(row: MessageV3, ops: Collaborators): Option<seq<Item>>
  {
    if |row.BytesExtra| != 0 && ops.unmarshal(row.BytesExtra).Some?
       && ops.unmarshal(row.BytesExtra).value != []
    then ops.unmarshal(row.BytesExtra)
    else None
  }

  /**
   * The rows on which Wrap, as written, writes the media path through a nil
   * media description: a video whose media parse failed but whose metadata
   * decodes.
   */
  predicate DereferencesNilMedia(row: MessageV3, ops: Collaborators)
  {
    row.Type == VideoType && Metadata(row, ops).Some?
    && ops.newMedia(row.Type, DecodedContent(row, ops)).None?
  }

  /**
   * The rows DereferencesNilMedia names are exactly the video rows with
   * decoded metadata on which the media step left no description.
   */
  lemma NilMediaExactlyOnDereferencingRows(row: MessageV3, ops: Collaborators, m: Message)
    requires Columns(row, ops, m)
    ensures DereferencesNilMedia(row, ops)
        <==> row.Type == VideoType && Metadata(row, ops).Some? && m.MediaMessage == null
  {
  }

  /**
   * What a message holds once Wrap has copied the columns and run the
   * decompression and media steps, before it reads the metadata.
   */
  ghost predicate Columns(row: MessageV3, ops: Collaborators, m: Message)
    reads m
  {
    // columns copied unchanged, and the adapter's version tag
    && m.Sequence == row.Sequence && m.CreateTime == row.CreateTime && m.TalkerID == row.TalkerID
    && m.Talker == row.StrTalker && m.IsSender == row.IsSender
    && m.Type == row.Type && m.SubType == row.SubType
    && m.CompressContent == row.CompressContent
    && m.Version == WeChatV3
    // enrichment fields are left for a later collaborator
    && m.DisplayName == "" && m.ChatRoomName == ""
    // a group chat exactly when the talker ends with the marker
    && m.IsChatRoom == HasSuffix(row.StrTalker, ChatRoomSuffix)
    // the text: decompressed for type 49 when that succeeds, the raw column otherwise
    && m.Content == DecodedContent(row, ops)
    // no media for plain text; otherwise media exactly when the parser accepts the content
    && (m.MediaMessage == null <==> row.Type == TextType || ops.newMedia(row.Type, m.Content).None?)
  }

  /** The media description of a wrapped message: the parsed one, with the path from metadata tag 4 for a video. */
  ghost function WrappedMedia(row: MessageV3, ops: Collaborators): MediaView
    requires row.Type != TextType && ops.newMedia(row.Type, DecodedContent(row, ops)).Some?
  {
    var parsed := ops.newMedia(row.Type, DecodedContent(row, ops)).value;
    if row.Type == VideoType && Metadata(row, ops).Some? then
      parsed.(mediaPath := VideoPath(LastValue(Metadata(row, ops).value, VideoPathTag).GetOr(""), ops.separator))
    else
      parsed
  }

  /** The group-chat sender of a wrapped message: metadata tag 1 in a group chat, "" otherwise. */
  ghost function WrappedSender(row: MessageV3, ops: Collaborators): string
  {
    if HasSuffix(row.StrTalker, ChatRoomSuffix) && Metadata(row, ops).Some? then
      LastValue(Metadata(row, ops).value, SenderTag).GetOr("")
    else
      ""
  }

  /** What a message built by Wrap from `row` holds, field by field. */
  ghost predicate WrapsTo(row: MessageV3, ops: Collaborators, m: Message)
    reads m, m.MediaMessage
  {
    && Columns(row, ops, m)
    && (m.MediaMessage != null ==> m.MediaMessage.View() == WrappedMedia(row, ops))
    && m.ChatRoomSender == WrappedSender(row, ops)
  }

  /**
   * The first half of MessageV3.Wrap: the composite literal, the group-chat
   * flag, the type-49 decompression and the media parse.
   */
  method WrapColumns(row: MessageV3, ops: Collaborators) returns (m: Message)
    ensures fresh(m) && (m.MediaMessage != null ==> fresh(m.MediaMessage))
    ensures Columns(row, ops, m) && m.ChatRoomSender == ""
    ensures m.MediaMessage != null ==> m.MediaMessage.View() == ops.newMedia(row.Type, m.Content).value
  {
    m := new Message.FromV3(row);
    m.IsChatRoom := HasSuffix(m.Talker, ChatRoomSuffix);

    if m.Type == AppType {
      var text := ops.decompress(row.CompressContent);
      if text.Some? {
        m.Content := text.value;
      }
    }

    if m.Type != TextType {
      var media := NewMediaMessage(ops.newMedia, m.Type, m.Content);
      if media != null {
        m.MediaMessage := media;
      }
    }
  }

  /** A map ParseBytesExtra built from `items` answers Go lookups with the last value of each tag. */
  lemma LookupIsLastValue(extra: Option<map<int, string>>, items: Option<seq<Item>>)
    requires extra.Some? <==> items.Some?
    requires extra.Some? ==> extra.value.Keys == set j | 0 <= j < |items.value| :: items.value[j].tag
    requires extra.Some? ==> forall t :: t in extra.value ==> LastValue(items.value, t) == Some(extra.value[t])
    ensures extra.Some? ==> forall t :: Lookup(extra.value, t) == LastValue(items.value, t).GetOr("")
  {
  }

  /**
   * MessageV3.Wrap, with a nil check before the video path is written: a
   * video whose media parse failed keeps no media description. Never fails.
   */
  method Wrap(row: MessageV3, ops: Collaborators) returns (m: Message)
    ensures fresh(m) && (m.MediaMessage != null ==> fresh(m.MediaMessage))
    ensures WrapsTo(row, ops, m)
  {
    m := WrapColumns(row, ops);
    if |row.BytesExtra| != 0 {
      var extra := ParseBytesExtra(row.BytesExtra, ops.unmarshal);
      LookupIsLastValue(extra, Metadata(row, ops));
      if extra.Some? {
        if m.IsChatRoom {
          m.ChatRoomSender := Lookup(extra.value, SenderTag);
        }
        if m.Type == VideoType && m.MediaMessage != null {
          m.MediaMessage.MediaPath := VideoPath(Lookup(extra.value, VideoPathTag), ops.separator);
        }
      }
    }
  }

  /**
   * MessageV3.Wrap as written: the video path is written without checking
   * that a media description exists, so the rows DereferencesNilMedia
   * describes are outside what it can handle.
   */
  method WrapAsWritten(row: MessageV3, ops: Collaborators) returns (m: Message)
    requires !DereferencesNilMedia(row, ops)
    ensures fresh(m) && (m.MediaMessage != null ==> fresh(m.MediaMessage))
    ensures WrapsTo(row, ops, m)
  {
    m := WrapColumns(row, ops);
    if |row.BytesExtra| != 0 {
      var extra := ParseBytesExtra(row.BytesExtra, ops.unmarshal);
      LookupIsLastValue(extra, Metadata(row, ops));
      if extra.Some? {
        if m.IsChatRoom {
          m.ChatRoomSender := Lookup(extra.value, SenderTag);
        }
        if m.Type == VideoType {
          m.MediaMessage.MediaPath := VideoPath(Lookup(extra.value, VideoPathTag), ops.separator);
        }
      }
    }
  }

  /** A video row whose media parse fails and whose metadata decodes: Wrap as written dereferences nil on it. */
  lemma NilMediaPathWriteReachable(row: MessageV3, ops: Collaborators)
    requires row == MessageV3(0, 0, 0, "alice", 0, VideoType, 0, "<msg/>", [], [1])
    requires ops.unmarshal([1]) == Some([Item(VideoPathTag, "root/video/v.mp4")])
    requires ops.newMedia(VideoType, "<msg/>") == None
    ensures DereferencesNilMedia(row, ops)
  {
  }

  /** The speaker part of a transcript entry: "我", the group-chat sender or the talker, qualified by the display name when there is one. */
  function Speaker(m: Message): string
    reads m
  {
    var who := if m.IsSender == 1 then SelfLabel else if m.IsChatRoom then m.ChatRoomSender else m.Talker;
    if m.DisplayName != "" then m.DisplayName + "(" + who + ")" else who
  }

  /** The group-chat part of a transcript entry, empty unless it is a group chat shown as such. */
  function RoomTag(m: Message, showChatRoom: bool): string
    reads m
  {
    if m.IsChatRoom && showChatRoom then
      "[" + (if m.ChatRoomName != "" then m.ChatRoomName + "(" + m.Talker + ")" else m.Talker) + "] "
    else ""
  }

  /** The transcript entry PlainText produces, given the formatted timestamp and the body. */
  function Transcript(m: Message, showChatRoom: bool, stamp: string, body: string): string
    reads m
  {
    Speaker(m) + " " + RoomTag(m, showChatRoom) + stamp + "\n" + body + "\n"
  }

  /**
   * A transcript entry starts with the speaker and a space. The speaker is
   * "我" for a sent message, the group-chat sender in a group chat and the
   * talker otherwise, written name(speaker) when there is a display name.
   */
  lemma TranscriptStartsWithSpeaker(m: Message, showChatRoom: bool, stamp: string, body: string)
    ensures
      var t := Transcript(m, showChatRoom, stamp, body);
      var who := if m.IsSender == 1 then SelfLabel else if m.IsChatRoom then m.ChatRoomSender else m.Talker;
      var speaker := if m.DisplayName != "" then m.DisplayName + "(" + who + ")" else who;
      |t| >= |speaker| + 1 + |stamp| + |body| + 2 && t[..|speaker| + 1] == speaker + " "
  {
    var t := Transcript(m, showChatRoom, stamp, body);
    var head := Speaker(m) + " ";
    assert t == head + (RoomTag(m, showChatRoom) + stamp + "\n" + body + "\n");
  }

  /**
   * After the speaker comes the "[room] " tag exactly when the message is a
   * group chat and rooms are shown, and the timestamp straight away
   * otherwise. The room is the talker, written name(talker) when there is a
   * room name.
   */
  lemma TranscriptRoomTag(m: Message, showChatRoom: bool, stamp: string, body: string)
    ensures
      var t := Transcript(m, showChatRoom, stamp, body);
      var room := if m.ChatRoomName != "" then m.ChatRoomName + "(" + m.Talker + ")" else m.Talker;
      var n := |Speaker(m)| + 1;
      && (m.IsChatRoom && showChatRoom ==> |t| >= n + |room| + 3 && t[n..n + |room| + 3] == "[" + room + "] ")
      && (!(m.IsChatRoom && showChatRoom) ==> |t| >= n + |stamp| && t[n..n + |stamp|] == stamp)
  {
    var t := Transcript(m, showChatRoom, stamp, body);
    var head := Speaker(m) + " ";
    var tag := RoomTag(m, showChatRoom);
    assert t == head + (tag + (stamp + "\n" + body + "\n"));
    assert t[|head|..] == tag + (stamp + "\n" + body + "\n");
  }

  /** A transcript entry ends with a line break, the body and a line break. */
  lemma TranscriptEndsWithBody(m: Message, showChatRoom: bool, stamp: string, body: string)
    ensures
      var t := Transcript(m, showChatRoom, stamp, body);
      |t| >= |body| + 2 && t[|t| - |body| - 2..] == "\n" + body + "\n"
  {
    var t := Transcript(m, showChatRoom, stamp, body);
    assert t == (Speaker(m) + " " + RoomTag(m, showChatRoom) + stamp) + ("\n" + body + "\n");
  }

  /**
   * The layout of a transcript entry: the speaker ("我" for a sent message,
   * the group-chat sender in a group chat, the talker otherwise, wrapped as
   * name(speaker) when there is a display name) and a space; then the
   * "[room] " tag exactly when a group chat is shown as such, the timestamp
   * straight away otherwise; the body last, between two line breaks.
   */
  lemma TranscriptLayout(m: Message, showChatRoom: bool, stamp: string, body: string)
    ensures
      var t := Transcript(m, showChatRoom, stamp, body);
      var who := if m.IsSender == 1 then SelfLabel else if m.IsChatRoom then m.ChatRoomSender else m.Talker;
      var speaker := if m.DisplayName != "" then m.DisplayName + "(" + who + ")" else who;
      var room := if m.ChatRoomName != "" then m.ChatRoomName + "(" + m.Talker + ")" else m.Talker;
      var n := |speaker| + 1;
      && |t| >= n + |stamp| + |body| + 2
      && t[..n] == speaker + " "
      && (m.IsChatRoom && showChatRoom ==> |t| >= n + |room| + 3 && t[n..n + |room| + 3] == "[" + room + "] ")
      && (!(m.IsChatRoom && showChatRoom) ==> t[n..n + |stamp|] == stamp)
      && t[|t| - |body| - 2..] == "\n" + body + "\n"
  {
    TranscriptStartsWithSpeaker(m, showChatRoom, stamp, body);
    TranscriptRoomTag(m, showChatRoom, stamp, body);
    TranscriptEndsWithBody(m, showChatRoom, stamp, body);
  }
}
