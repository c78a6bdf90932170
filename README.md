# chatlog message normalisation, modelled in Dafny

This project models the record-normalisation core of chatlog, a tool that
exports WeChat chat history: `internal/model/message.go`. Three operations
are modelled:

- `MessageV3.Wrap` turns a raw row of the v3 `MSG` table into the canonical
  `Message`. It copies the columns and sets the version tag `"wechatv3"`. It
  marks a group chat when the talker ends with `@chatroom`. For type 49 it
  tries LZ4 decompression of `CompressContent`. For every type but 1 it tries
  the media parser. It then reads the Protocol Buffers metadata in
  `BytesExtra`: tag 1 gives the group-chat sender, and for a video (type 43)
  tag 4 gives the media path, with its first segment dropped.
- `ParseBytesExtra` decodes `BytesExtra` and folds its (tag, value) items into
  a map. A later item overwrites an earlier one with the same tag. A decoding
  error or an empty item list gives nil.
- `Message.PlainText` renders a message as a transcript entry. The entry holds
  the speaker, an optional `[room] ` tag, the timestamp and a line break, then
  the body and a final line break.

Layout:

- `wrappers.dfy` (`Wrappers`): `Option`, standing for Go's nil results.
- `go_strings.dfy` (`GoStrings`): `strings.HasSuffix`, `strings.Split` and
  `strings.Join` with a one-character separator, and `filepath.ToSlash`. It
  also holds the video-path heuristic built from them.
- `media.dfy` (`Media`): the media description as a class, with its
  `MediaPath` and host fields that message.go writes. Everything else about it
  is opaque.
- `bytes_extra.dfy` (`BytesExtra`): metadata items and `ParseBytesExtra`.
- `message.dfy` (`Messages`): the records, the constants, `Wrap`,
  `PlainText` and the transcript layout.
- `scenarios.dfy` (`Scenarios`): whole-record cases, wrapped then rendered.

Code that message.go calls but does not define is passed in as function
parameters, grouped in the `Collaborators` datatype:

- `decompress` is `lz4.Decompress` followed by Go's bytes-to-string conversion.
- `unmarshal` is `proto.Unmarshal` into `wxproto.BytesExtra`.
- `newMedia` is the parser behind `NewMediaMessage`.
- `separator` is the platform's path separator.

`PlainText` also takes the timestamp formatter and `MediaMessage.String` as
parameters. `Wrap` is proved against the ghost predicate `WrapsTo`, which
states every field of the new message in terms of the row and the
collaborators. `PlainText` is proved against the function `Transcript`, and
`TranscriptLayout` states that function's layout.

`Wrap` has no error return, and every other step that can fail leaves its
field at its default: a failed decompression keeps the raw content, a failed
media parse leaves no media, undecodable metadata leaves no sender. The video
path step is the exception: it writes through a nil media description. The
model follows the code in `WrapAsWritten` and records the defect under
"Findings". `Wrap` is the corrected version, and the rest of the model uses it.

## Model

| member | source | states |
|---|---|---|
| `GoStrings.HasSuffix` | internal/model/message.go:117 | true exactly when some tail of the string equals the suffix |
| `GoStrings.HasSuffixExamples` | internal/model/message.go:117 | "alice" is not a group chat; "12345@chatroom" is |
| `GoStrings.IndexOf` | internal/model/message.go:141 | gives the position of the first occurrence of the separator: it is there, and not in the prefix before it |
| `GoStrings.Split` | internal/model/message.go:141 | always gives at least one piece, and no piece contains the separator |
| `GoStrings.Join` | internal/model/message.go:143 | splitting the joined string again gives back the pieces, when there is at least one and none holds the separator |
| `GoStrings.SplitJoinStep` | internal/model/message.go:143 | one more separator-free piece in front of a joined tail splits back into the longer list |
| `GoStrings.SplitAtFirst` | internal/model/message.go:141 | when the left side holds no separator, splitting left + sep + right gives the left side, then the pieces of the right side |
| `GoStrings.JoinSplit` | internal/model/message.go:141-143 | joining the pieces of a split with the same separator gives back the original string |
| `GoStrings.ToSlash` | internal/model/message.go:141 | keeps the length; each platform separator becomes '/', every other character is kept |
| `GoStrings.StripFirstSegment` | internal/model/message.go:140-144 | a path without '/' is unchanged; otherwise the result is exactly what follows the first '/' |
| `GoStrings.StripFirstSegmentAt` | internal/model/message.go:140-144 | when the first '/' is at i, the result is the path after position i |
| `GoStrings.StripFirstSegmentKeepsBareName` | internal/model/message.go:142-144 | "file.mp4" stays "file.mp4" |
| `GoStrings.StripFirstSegmentDropsRoot` | internal/model/message.go:141-143 | "root/sub/file.mp4" becomes "sub/file.mp4" |
| `Media.NewMediaMessage` | internal/model/message.go:127-130 | null exactly when the parser fails; otherwise a fresh description holding what the parser produced |
| `Media.MediaMessage.SetHost` | internal/model/message.go:208 | binds the host and changes nothing else in the description |
| `BytesExtra.LastValue` | internal/model/message.go:164-167 | None exactly when no item carries the tag; otherwise the value of an item with that tag that no later item's tag repeats |
| `BytesExtra.LastValueAppend` | internal/model/message.go:165-166 | appending an item changes the last value of its own tag only, and makes that value the new item's |
| `BytesExtra.KeysAreTags` | internal/model/message.go:164-167 | a map holding exactly the tags that have a last value has the set of item tags as its keys |
| `BytesExtra.ParseBytesExtra` | internal/model/message.go:155-170 | nil exactly on a decoding error or an empty item list; otherwise the keys are exactly the item tags, and each key maps to the value of the last item with that tag |
| `BytesExtra.LastItemWins` | internal/model/message.go:164-167 | items (7,"a") then (7,"b") give the map {7: "b"} |
| `Messages.Message.FromV3` | internal/model/message.go:104-115 | copies the row's columns unchanged, sets Version to "wechatv3" and leaves every other field at its zero value |
| `Messages.WrapColumns` | internal/model/message.go:104-131 | group chat exactly when the talker ends with "@chatroom"; content decompressed only for type 49 when decompression succeeds, raw StrContent otherwise; no media for type 1, otherwise media exactly when the parser accepts the content after decompression |
| `Messages.Lookup` | internal/model/message.go:136 | a present key gives its value; a non-empty answer comes from a present key (an absent key gives Go's zero value "") |
| `Messages.VideoPath` | internal/model/message.go:140-144 | equals the code's own steps: split the slash form of the tag-4 value on '/', join all but the first piece when there is more than one, keep the raw value otherwise |
| `Messages.NilMediaExactlyOnDereferencingRows` | internal/model/message.go:126-145 | the rows excluded from WrapAsWritten are exactly the video rows with decoded metadata on which the media step left no description |
| `Messages.LookupIsLastValue` | internal/model/message.go:136-140 | a Go lookup in the parsed map gives the last value of the tag among the items, or "" when no item carries it |
| `Messages.Wrap` | internal/model/message.go:102-151 | never fails; the new message satisfies WrapsTo: copied columns and version tag, suffix-derived group flag, content, media, sender from tag 1 only for a group chat with decoded metadata, and the tag-4 path with its first segment dropped for a video that has media |
| `Messages.WrapAsWritten` | internal/model/message.go:102-151 | the code as written: the same result as Wrap on every row except those where it dereferences a nil media description, which its precondition excludes |
| `Messages.NilMediaPathWriteReachable` | internal/model/message.go:126-145 | a type-43 row whose media parse fails but whose metadata decodes reaches the unguarded path write |
| `Messages.Message.PlainText` | internal/model/message.go:172-217 | binds the host into the media description, if any, and changes nothing else; the text is the Transcript entry whose body is the media's textual form or, without media, the content |
| `Messages.TranscriptStartsWithSpeaker` | internal/model/message.go:175-189 | the entry starts with the speaker and a space: "我" when sent, the group-chat sender in a group chat, the talker otherwise, written name(speaker) when there is a display name |
| `Messages.TranscriptRoomTag` | internal/model/message.go:191-204 | after the speaker comes "[room] " exactly when it is a group chat and rooms are shown, the timestamp otherwise; the room is name(talker) when there is a room name, the talker otherwise |
| `Messages.TranscriptEndsWithBody` | internal/model/message.go:205-214 | the entry ends with a line break, the body and a line break |
| `Messages.TranscriptLayout` | internal/model/message.go:175-214 | the entry starts with the speaker and a space. The speaker is "我" when sent, the group-chat sender in a group chat, the talker otherwise, written name(speaker) when there is a display name. The "[room] " tag follows exactly when the message is a group chat and the room is shown; otherwise the timestamp follows. The entry ends with a line break, the body and a line break |
| `Scenarios.GroupChatTranscript` | internal/model/message.go:175-214 | a received message from "bob" in 7001@chatroom, without display or room names, renders as "bob [7001@chatroom] " then the timestamp, ending in "hi\n" |
| `Scenarios.GroupChatEntry` | internal/model/message.go:172-217 | a received "hi" in 7001@chatroom with metadata sender "bob" renders as "bob [7001@chatroom] …" ending in "hi\n" |
| `Scenarios.VideoWithoutMedia` | internal/model/message.go:139-145 | on the row that breaks the code as written, Wrap returns a message without a media description |

## Left out

- `lz4.Decompress`, `proto.Unmarshal` with the generated `wxproto` decoder, `NewMediaMessage`'s parsers and `MediaMessage.String` are not part of this model. They are function parameters with no properties assumed.
- Media.MediaMessage.SetHost: only the host assignment is modelled; whatever else the real method does is not part of this model.
- Only the `MediaPath` and host fields of a media description are visible. Its type-specific fields are one opaque `detail` string and a `kind` code.
- `time.Unix` and `Format("2006-01-02 15:04:05")`: `CreateTime` is the raw epoch-seconds integer, and the formatter is a parameter of `PlainText`.
- `filepath.ToSlash` is modelled for any platform separator. The separator is a parameter, since it is '/' on Unix.
- Go strings are byte strings; the model uses sequences of characters. The operations used here (suffix test, split on '/', concatenation) act the same on both for valid UTF-8. The decompressed bytes come back as text from the `decompress` parameter.
- `pbMsg.Items == nil` is modelled as the empty item list. The Protocol Buffers decoder yields no non-nil empty list.
- Integer widths (`int64`, `int`, the tag conversion `int(item.Type)`) are unbounded integers. No arithmetic is done on them, so no wrap-around can arise.
- The `strings.Builder` of `PlainText` is a local string that is appended to step by step.
- The v4 and Darwin adapters are not part of this model, nor are their version constants. JSON struct tags and the commented-out table schema are left out too.

## Findings

| source | as written | input that shows it | evidently intended | confidence | as-written member | corrected member |
|---|---|---|---|---|---|---|
| internal/model/message.go:145 | `_m.MediaMessage.MediaPath` is assigned with no nil check; the media description is nil whenever the media parse of lines 126-131 failed | a type-43 row whose content the media parser rejects, with non-empty BytesExtra that decodes to at least one item, e.g. tag 4 "root/video/v.mp4" | skip the path when there is no media description, so that Wrap always returns a message | high; not executed | Messages.WrapAsWritten | Messages.Wrap |
