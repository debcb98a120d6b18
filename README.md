# SnapWrap, modelled in Dafny

SnapWrap wraps a Snapchat client in two polling engines, `Snapchat` (snapchat.py) and
`SnapchatBot` (bot.py). Each engine logs in, then loops forever. On each turn it does four things:

1. It fetches the pending snaps and skips those already opened.
2. It downloads each remaining blob and keeps it only when the bytes start with a video, image or zip signature.
3. It turns each kept record into a `Snap` and marks it viewed (and, for the polling engine, screenshotted).
4. It runs the user's optional hooks: `on_snap` for each new snap, then `on_friend_add` and `on_friend_delete` for the names that appeared in, or left, the "added me" list.

Sending uploads a snap first, unless it is already uploaded, and joins the recipients with `,`.

This project models that core:

| file | module | models |
|---|---|---|
| `common.dfy` | `Common` | Python values (`None`, bools, ints, strings, bytes, lists, dicts), the exceptions the code can raise, `==` against int constants, `d[k]`, `k in d`, `','.join` and `str.split` |
| `client.dfy` | `Client` | `SnapWrap/client/__init__.py`: the signature sniffers, media type and extension, `_map_keys`, the `c_id` filter of `get_snaps`, the validity rule of `get_blob`/`get_story_blob`, `upload`'s result, token adoption in `login`/`get_updates`, the grouping of `get_friend_stories`, and the `Snapchat` client class with its two session fields |
| `utils.dfy` | `Utils` | `file_extension_for_type`, `guess_type`, `duration_string_to_timedelta` and `get_video_duration`'s `.seconds`, the target name of `save_snap` |
| `snaps.dfy` | `Snaps` | `SnapWrap/snap.py`: the `Snap` class, its constructor's field rules, `upload`, `from_file`, `from_image` |
| `cycle.dfy` | `Cycle` | what both engines share: the friend diff and hook dispatch, the `get_snaps` record pipeline and its marks, the login check, recipient normalisation and upload-before-send |
| `poller.dfy` | `Poller` | `SnapWrap/snapchat.py`: the engine class `Snapchat` |
| `bot.dfy` | `Bot` | `SnapWrap/bot.py`: the engine class `SnapchatBot` |

What the network, the cipher, the clock and user code would supply is passed in as parameters:

- **Server answers:** the decoded responses.
- **The cipher:** what `decrypt` makes of each snap's payload, a function of the snap id.
- **Upload and story answers:** what the client's `upload` and `send_to_story` return or raise.
- **Friend lists:** for the bot, the names its client's `get_friends`/`get_added_me` return. The polling engine reads the names out of the update answers of its own client.
- **Random and temporary values:** the uuid, the temporary file names, the MIME type that `mimetypes` guesses, the text `ffprobe` prints.

The engines' blob fetches, marks and story requests, and every hook they run, are recorded as `Cycle.Call` values in a returned trace. The order of the trace is the order of the calls. Some requests are not in the trace: the login, the uploads, and the `get_updates` requests behind `get_snaps`, `get_friends` and `get_added_me`. Their answers are parameters, and their effects show in the client's token, in the results returned and in the snap's fields. `send_snap` returns its one send request as its result. Python iterates a `set` in an order the model cannot know, so the hook dispatch returns that order as an out-parameter and proves that it lists each name of the set exactly once.

Two behaviours of the code differ from what a reader of its description might expect; the model follows the code:

- **`process_snap` keeps the declared media type.** It copies the record's `media_type`, not the type sniffed from the blob (snapchat.py:32, bot.py:34). See `Cycle.ProcessSnapCopies`.
- **The hooks see the new snapshot.** The retained `added_me` snapshot is replaced before the friend hooks run (snapchat.py:51, bot.py:56). The hooks therefore see the new snapshot, while the diff sets were computed from the old one. `Poller.Snapchat.FriendTurn` records the snapshot each hook sees.

Several quirks of the code are modelled as written and exhibited by lemmas:

- **`_map_keys` reads `rp` behind the wrong key.** It takes `rp` only when the key `''` is present: `Client.RecipientIgnoresRp`.
- **`file_extension_for_type` and `get_file_extension` disagree.** The first compares with `is`; the second compares with `==` and `in`. They agree on the three media codes but differ on `False` and on unknown codes: `Utils.ExtensionRulesAgree`.
- **`guess_type` can raise.** It raises `AttributeError` when `mimetypes` guesses nothing: `Utils.GuessType`.
- **Some snaps cannot be saved.** `save_snap` reads the third `.`-separated piece of the file name. That piece exists for the `"..jpg"`/`"..mp4"` temporary names the constructor makes. It does not exist for a name with a single dot, such as the `.jpg` files of `from_file`. For an image snap of `from_file` with a string user name, `save_snap` therefore raises `IndexError`: `Utils.SaveFileImageSnapFails`, `Snaps.FromFileImageCannotBeSaved`. Other file-based snaps fail earlier. With the default user name None, `from_file` snaps raise `TypeError` when the directory and the sender are concatenated. `from_image` snaps never get a sender, so they raise `AttributeError`: `Snaps.SavingSnapsWithoutSender`.
- **The polling engine's `delete_story` never deletes.** The client's `delete_story` reaches for `self.client`, an attribute the client does not have, so it raises `AttributeError` for every story id except `None`: `Poller.Snapchat.DeleteStory`.

Media-type codes and `DEFAULT_DURATION` come from `constants.py`, which is not part of this model. The model uses placeholder codes (image 0, video 1, video without audio 2, unknown -1, default duration 5). Properties depend on these values only through their being distinct, with one exception: Python compares `False` and `True` with ints as 0 and 1. So the `False` clause of `Utils.ExtensionRulesAgree` depends on the image code being 0, and `True` equals the video code 1. The client imports `MEDIA_TYPE_VIDEO_NO_AUDIO` (client/__init__.py:8), while snap.py:6 and utils.py:3 import `MEDIA_TYPE_VIDEO_WITHOUT_AUDIO`. The model takes the two names to be one constant.

## Model

| member | source | states |
|---|---|---|
| Common.Visit | SnapWrap/client/__init__.py:191 | a `for` loop visits a list's items, a string's one-character strings, a byte string's bytes or a dict's keys, each once; any other value raises TypeError |
| Common.VisitNonList | SnapWrap/client/__init__.py:191-193 | outside a list, the loop visits something iff the value is not empty, and subscripting what it visits by a string key raises TypeError |
| Common.SplitJoin | SnapWrap/snapchat.py:85 | joining at least one separator-free piece and splitting again gives back exactly the pieces |
| Client.SniffersReadTwoBytes | SnapWrap/client/__init__.py:11-20 | each sniffer holds iff the data has at least two bytes and they are `00 00`, `FF D8` or `50 4B`; shorter data satisfies none |
| Client.SniffersExclusive | SnapWrap/client/__init__.py:11-20 | no byte sequence satisfies two sniffers |
| Client.GetMediaType | SnapWrap/client/__init__.py:30-35 | video iff `is_video`, image iff `is_image`, None iff neither; zip data has no media type |
| Client.GetFileExtension | SnapWrap/client/__init__.py:23-28 | `mp4` iff the type equals video or video-without-audio, `jpg` iff it equals image, `''` for everything else |
| Client.AcceptBlob | SnapWrap/client/__init__.py:213-216 | the decrypted bytes come back unchanged iff one of the three signatures matches, else None |
| Client.AcceptedBlobKinds | SnapWrap/client/__init__.py:229-231 | an accepted blob has a media type exactly when it is not a zip |
| Client.UploadResult | SnapWrap/client/__init__.py:440-461 | ValueError iff the path is missing or the data has no media type; otherwise the generated media id iff the server answered with an empty body, else None |
| Client.ZipNeverUploads | SnapWrap/client/__init__.py:451-453 | a zip payload, though `get_blob` accepts it, always makes `upload` raise ValueError |
| Client.MapKeys | SnapWrap/client/__init__.py:37-49 | KeyError('rp') iff `''` is present and `rp` is not; otherwise exactly the ten keys, each the aliased value or None, and `recipient` read from `rp` only when `''` is present |
| Client.RecipientIgnoresRp | SnapWrap/client/__init__.py:44 | a record with `rp` but without the key `''` maps to a None recipient |
| Client.Unclaimed | SnapWrap/client/__init__.py:177-178 | the filter keeps exactly the records without `c_id`, none added |
| Client.UnclaimedInOrder | SnapWrap/client/__init__.py:177-178 | the filter distributes over concatenation and keeps a single record iff it has no `c_id`, so order and multiplicity are kept |
| Client.MapPending | SnapWrap/client/__init__.py:177-178 | every mapped pending record has the ten keys and a None `media_id` |
| Client.MapPendingFiltersThenMaps | SnapWrap/client/__init__.py:177-178 | the comprehension equals filtering out the records with `c_id` and then mapping the rest, in order |
| Client.MapAllSucceeds | SnapWrap/client/__init__.py:177-178 | mapping a list succeeds iff every record maps |
| Client.MapAllPointwise | SnapWrap/client/__init__.py:177-178 | a successful mapping keeps the length and maps the i-th record to the i-th result |
| Client.LoginStatusLeavesReset | SnapWrap/client/__init__.py:138-139 | a login response carrying `status` is returned with user name and token left None |
| Client.LoginAdopts | SnapWrap/client/__init__.py:140-143 | otherwise the token and user name become those of `updates_response`, each left None when absent |
| Client.UpdatesTokenRule | SnapWrap/client/__init__.py:166-167 | `get_updates` replaces the token only when `updates_response` carries one, and then with that one |
| Client.FriendsSection | SnapWrap/client/__init__.py:364-369 | `get_friends` raises what `get_updates` raises, whatever the token held, and otherwise returns `friends_response` |
| Client.SnapsOutcome | SnapWrap/client/__init__.py:177-178 | the exceptions of `get_updates` and of reaching the pending list propagate; the records returned have the ten keys and no media id |
| Client.TaggedShape | SnapWrap/client/__init__.py:192-196 | the inner loop appends, in order, each story's `story` object with `sender` set to the friend's user name |
| Client.FriendEntryShape | SnapWrap/client/__init__.py:191-197 | a friend entry reads the friend's `username` and tags every one of its stories |
| Client.StoriesAreTagged | SnapWrap/client/__init__.py:191-197 | every story in the result carries the user name it is grouped under as its sender |
| Client.StoriesKeys | SnapWrap/client/__init__.py:191-197 | the result's keys are exactly the friends' user names |
| Client.StoriesLastWins | SnapWrap/client/__init__.py:197 | a user name listed twice keeps the stories of its last entry |
| Client.StoriesKeep | SnapWrap/client/__init__.py:190-197 | an entry no friend overwrites survives the loop unchanged |
| Client.CollectFriendStories | SnapWrap/client/__init__.py:190-198 | the loop over a list of friends builds exactly the grouping function; an empty string or dict gives `{}`; any other value raises TypeError |
| Client.TagStories | SnapWrap/client/__init__.py:192-196 | the inner loop over a list of stories tags them as the tagging function does; an empty string or dict gives no story; any other value raises TypeError |
| Client.Snapchat.constructor | SnapWrap/client/__init__.py:52-60 | a new client has user name and token None |
| Client.Snapchat.Login | SnapWrap/client/__init__.py:111-143 | the session after login and the result are those of the login rule |
| Client.Snapchat.GetUpdates | SnapWrap/client/__init__.py:155-168 | the token changes as the update rule says and nothing else changes |
| Client.Snapchat.GetSnaps | SnapWrap/client/__init__.py:170-178 | the records returned are the filtered and mapped pending records |
| Client.Snapchat.GetFriends | SnapWrap/client/__init__.py:364-369 | the token changes as `get_updates`'s rule says and the result is `friends_response` or the exception of either step |
| Client.Snapchat.GetFriendStories | SnapWrap/client/__init__.py:180-198 | the stories returned are the grouping of `friend_stories`, the exceptions of each lookup propagate |
| Utils.FileExtensionForType | SnapWrap/utils.py:6-10 | `.jpg` iff the type is the image code itself, `.mp4` for every other value |
| Utils.ExtensionRulesAgree | SnapWrap/utils.py:6-10 | agrees with `get_file_extension` on the three media codes; differs on the unknown code and on `False` |
| Utils.GuessType | SnapWrap/utils.py:20-29 | video iff the MIME type starts with `video`, else image iff it starts with `image`, else unknown; AttributeError iff nothing was guessed |
| Utils.ParseInt | SnapWrap/utils.py:36 | `int()` rejects empty fields and fields holding `:` |
| Utils.ParseDigits | SnapWrap/utils.py:36 | `int()` reads any non-empty run of decimal digits as its value |
| Utils.LeadingZero | SnapWrap/utils.py:36 | a leading zero does not change the value of a run of digits |
| Utils.ParseShowNat | SnapWrap/utils.py:36 | `int()` reads back the decimal digits of every natural number |
| Utils.DurationSeconds | SnapWrap/utils.py:35-38 | a string that does not split into three fields is a ValueError; a result comes from three integer fields |
| Utils.DurationOfFields | SnapWrap/utils.py:35-38 | three integer fields H, M, S give H*3600 + M*60 + S seconds |
| Utils.DurationOfParts | SnapWrap/utils.py:35-38 | three colon-free fields that `int()` reads as H, M and S, joined by `:`, give H*3600 + M*60 + S seconds |
| Utils.DurationOfClock | SnapWrap/utils.py:35-38 | "H:M:S" written in decimal gives H*3600 + M*60 + S seconds |
| Utils.DurationOfDigits | SnapWrap/utils.py:35-38 | three runs of digits, leading zeros allowed, joined by `:` give the hours, minutes and seconds they read |
| Utils.TwoDigitsValue | SnapWrap/utils.py:43 | a number below 100 written with two digits, as `ffprobe` writes a field, reads back as that number |
| Utils.DurationOfPaddedClock | SnapWrap/utils.py:35-44 | `ffprobe`'s zero-padded "HH:MM:SS" gives HH*3600 + MM*60 + SS seconds, and `get_video_duration` that total modulo one day |
| Utils.SixtyFiveSeconds | SnapWrap/utils.py:40-44 | "00:01:05" is a clip of 65 seconds |
| Utils.VideoDuration | SnapWrap/utils.py:40-44 | `.seconds` is the total modulo 86400, within one day, defined exactly when the total is |
| Utils.VideoDurationWithinDay | SnapWrap/utils.py:44 | durations under a day are kept; longer ones lose their whole days |
| Utils.SaveSnapTarget | SnapWrap/utils.py:15-18 | AttributeError without a sender; a target is dir + sender + `_` + snap id + `.` + the third `.`-piece of the last `\`-segment of the file name |
| Utils.SaveReceivedSnap | SnapWrap/utils.py:15-18 | a received snap's temporary file saves as dir + sender + `_` + snap id + `.jpg` or `.mp4` |
| Utils.SaveFileImageSnapFails | SnapWrap/utils.py:18 | a file name with a single dot makes `save_snap` raise IndexError |
| Snaps.InitFields | SnapWrap/snap.py:43-72 | the constructor raises KeyError for `duration`, `media_type`, `username` (with `self_post`), `snap_id` (with `sender`) or `path` (without `data`), the first that is missing; otherwise not uploaded, no story id, no media id, duration and media type verbatim, `from_me` iff no `sender`, sender and snap id from opts with a `sender` (overriding `self_post`), a fresh id otherwise, the data's temporary file, written for a video code and resized otherwise, or the opened path |
| Snaps.SaveName | SnapWrap/utils.py:15-18 | a snap whose sender was never assigned raises AttributeError; a sender or id that is not a string raises TypeError; a name saved starts with the directory, the sender, `_`, the snap id and `.` |
| Snaps.ReceivedSnapSaveName | SnapWrap/snap.py:61-63 | a snap built from data saves under its sender and snap id with the extension of its declared type |
| Snaps.FromFileChoice | SnapWrap/snap.py:12-31 | UnknownMediaType when the type is neither video nor image; an image gets suffix `.jpg` and DEFAULT_DURATION for a None duration; a video gets `.snap.mp4` and, for a None duration, `get_video_duration` of the text `ffprobe` printed, whose exceptions propagate |
| Snaps.FromFileImageCannotBeSaved | SnapWrap/snap.py:22-31 | an image snap made by `from_file` cannot be saved with `save_snap` |
| Snaps.SavingSnapsWithoutSender | SnapWrap/utils.py:18 | a `from_image` snap (no sender assigned) makes `save_snap` raise AttributeError; a snap whose sender is None raises TypeError |
| Snaps.Snap.constructor | SnapWrap/snap.py:43-72 | the fields assigned step by step are exactly the constructor rule's |
| Snaps.Snap.Create | SnapWrap/snap.py:43-72 | `Snap(**opts)` raises exactly when a keyword is missing, else builds the rule's snap |
| Snaps.Snap.Upload | SnapWrap/snap.py:39-41 | the media id becomes the client's answer and `uploaded` becomes true, even for a None id; an exception leaves the snap alone |
| Snaps.Snap.FromFile | SnapWrap/snap.py:12-31 | the snap is a self post of the user with the chosen type, duration and output path |
| Snaps.Snap.FromImage | SnapWrap/snap.py:33-37 | the snap is an image with the given duration, not from anyone, in a `.jpg` file |
| Cycle.FriendDiff | SnapWrap/snapchat.py:48-49 | added = current − previous and removed = previous − current, name by name |
| Cycle.DiffLaws | SnapWrap/bot.py:53-54 | the two sets are disjoint, previous ∪ added − removed = current, and both are empty iff the snapshots hold the same names |
| Cycle.DiffReversed | SnapWrap/snapchat.py:48-49 | swapping the snapshots swaps the two sets |
| Cycle.FriendCallsOnce | SnapWrap/snapchat.py:53-61 | iterating a set of names calls the hook once per name and for no other |
| Cycle.DispatchFriendHooks | SnapWrap/bot.py:58-66 | the iteration order lists every name of the set once; a defined hook runs once per name, an undefined one never |
| Cycle.FriendHooks | SnapWrap/snapchat.py:53-61 | on_friend_add for every added name, then on_friend_delete for every removed one |
| Cycle.ProcessSnapCopies | SnapWrap/snapchat.py:27-35 | `process_snap` copies id, declared media type, time and sender into a snap that is not the user's own, not uploaded and holds the blob |
| Cycle.KeptAppend | SnapWrap/snapchat.py:138-156 | the snaps kept from two runs of records are those of the first then those of the second: input order is kept |
| Cycle.CallsAppend | SnapWrap/snapchat.py:138-156 | likewise for the requests made |
| Cycle.KeptSound | SnapWrap/snapchat.py:138-156 | every kept snap comes from one record of the input |
| Cycle.KeptOneRule | SnapWrap/snapchat.py:139-147 | a record yields a snap iff its status is not 2 and its blob is valid, and the snap holds that record's fields and blob |
| Cycle.KeptComplete | SnapWrap/bot.py:127-141 | every record not opened and with a valid blob yields a snap |
| Cycle.KeptBlobsAreMedia | SnapWrap/client/__init__.py:229-231 | with `get_blob`'s validity rule, every kept snap holds a video, an image or a zip |
| Cycle.MarkSubjects | SnapWrap/snapchat.py:149-152 | the marks made for a kept snap are exactly those its policy asks for |
| Cycle.RecordSubjects | SnapWrap/snapchat.py:139-152 | a record with status 2 causes no request; otherwise its blob is fetched and it is marked only when its blob is valid |
| Cycle.PipelineSubjects | SnapWrap/snapchat.py:138-156 | the requests of a run are, kind by kind, those of its records in order |
| Cycle.ExpectedIds | SnapWrap/bot.py:127-141 | those per-kind subjects are the unopened ids for fetches and the kept snaps' ids for marks |
| Cycle.PipelineMarks | SnapWrap/snapchat.py:138-156 | blobs are fetched exactly for the records whose status is not 2, in order; snaps are marked viewed iff the flag is set, screenshotted iff that flag is set, and only the snaps returned, in order |
| Cycle.ProcessRecord | SnapWrap/snapchat.py:139-154 | one turn of the loop makes exactly the record's requests and builds exactly its snap, if any |
| Cycle.CollectSnaps | SnapWrap/bot.py:123-143 | the loop makes exactly the requests of the pipeline and returns exactly the kept snaps, in order, each holding what `process_snap` builds |
| Cycle.CollectOne | SnapWrap/snapchat.py:138-154 | one turn of the loop extends the requests and snaps of the records before it by those of one record |
| Cycle.DispatchSnapHooks | SnapWrap/snapchat.py:42-44 | on_snap runs once per snap, in order, with the snap's sender |
| Cycle.LoginCheck | SnapWrap/snapchat.py:13-16 | the engine fails iff the client has neither a user name nor a token, with SystemExit(1) once status and message are read; otherwise with the exception of reading `status`, or else of reading `message` |
| Cycle.RefusedLoginExits | SnapWrap/bot.py:14-17 | a login refused with a status and a message ends the program with status 1 |
| Cycle.TokenLoginStarts | SnapWrap/snapchat.py:13-14 | a login whose update response carries a token starts the engine |
| Cycle.Strings | SnapWrap/snapchat.py:85 | the join succeeds iff every item is a string |
| Cycle.Recipients | SnapWrap/snapchat.py:82-85 | a string is wrapped into a one-element list; a list is joined with `,`; a non-string item is a TypeError |
| Cycle.RecipientsRoundTrip | SnapWrap/bot.py:83-86 | the recipients string splits on `,` back into the names when no name holds a comma |
| Cycle.SendSnap | SnapWrap/snapchat.py:77-87 | upload first unless uploaded; an upload exception stops the send; the send carries the media id, the joined recipients and the duration |
| Poller.NamesInOrder | SnapWrap/snapchat.py:66 | entries that each carry a `name` give those names, one per entry, in order |
| Poller.Snapchat.Start | SnapWrap/snapchat.py:8-19 | the engine starts iff the login check and both friend-list fetches succeed, otherwise with the first exception; the names are those of the two answers; the token is the login's, then adopted by each of the two `get_updates` |
| Poller.Snapchat.Names | SnapWrap/snapchat.py:65-72 | `get_friends`/`get_added_me`: the token follows `get_updates`'s rule; the names are read from the answer's `friends_response`, or the exception of reading them |
| Poller.Snapchat.GetSnaps | SnapWrap/snapchat.py:134-156 | the client's records go through the pipeline with the three flags; the client's exceptions propagate; the token follows the update rule |
| Poller.Snapchat.SnapTurn | SnapWrap/snapchat.py:40-44 | `get_snaps`'s exception ends the turn with no request; otherwise the pipeline's requests, then on_snap once per snap, in order |
| Poller.Snapchat.Begin | SnapWrap/snapchat.py:37-61 | one turn: the pipeline's requests, on_snap per snap, then `get_added_me`, whose exception ends the turn leaving the snapshot alone; otherwise the friend hooks, and the snapshot is the one just fetched; the token follows each `get_updates` |
| Poller.Snapchat.FriendTurn | SnapWrap/snapchat.py:46-61 | `get_added_me`'s exception leaves the snapshot alone; otherwise the diff sets are computed from the old snapshot, the snapshot is replaced, and the hooks see the new one |
| Poller.Snapchat.PostStory | SnapWrap/snapchat.py:95-104 | upload first unless uploaded, its exception propagating; then one story request with the sender as caption, the media id, duration and media type, unless the snap has no sender; every later exception is swallowed; the story id is set only when the answer holds one |
| Poller.Snapchat.DeleteStory | SnapWrap/client/__init__.py:399-405 | nothing happens for a None story id; any other id raises AttributeError |
| Bot.SnapchatBot.Start | SnapWrap/bot.py:7-21 | the bot starts iff its client holds a user name or a token after login |
| Bot.SnapchatBot.GetSnaps | SnapWrap/bot.py:123-143 | the records go through the pipeline, each kept snap marked viewed by id iff the flag is set |
| Bot.SnapchatBot.Listen | SnapWrap/bot.py:42-66 | one turn with marking on: the pipeline's requests, on_snap per snap, then the friend hooks; the snapshot is replaced by the fetched one |
| Bot.SnapchatBot.FriendTurn | SnapWrap/bot.py:51-66 | the diff from the old snapshot, the snapshot replaced before the hooks run |
| Bot.SnapchatBot.PostStory | SnapWrap/bot.py:92-103 | upload first unless uploaded; `send_to_story` is called with media id, duration and media type and its exception propagates; only reading the story id is guarded |
| Bot.SnapchatBot.DeleteStory | SnapWrap/bot.py:105-112 | nothing for a None story id; otherwise one delete request with the bot's user name and the story id |

## Left out

- **HTTP traffic.** This covers `_request`, `request`, the `ptoken` POST, `register`, and the settings, friend, block and feed endpoints. Their answers are parameters, or the endpoints are not modelled.
- **The cipher and id generation.** `encrypt`, `decrypt`, `decrypt_story`, `make_media_id` and `timestamp` are in SnapWrap/Client/utils.py, which is not part of this model. Decryption is a function-valued parameter.
- **The bot's client.** The `PySnap` package is not part of this model. The bot's client session after login, its records, its blobs and its answers are parameters.
- Bot.SnapchatBot.GetSnaps, Bot.SnapchatBot.Listen: require the records to carry `status`, `id`, `media_type`, `time` and `sender`. The format of the bot's client records is not visible, so the KeyError paths for missing keys are not modelled.
- **Python set iteration order.** This order is unknowable, so it is an out-parameter of the hook dispatch.
- **Libraries and the filesystem.** This covers PIL resizing, the ffmpeg and ffprobe subprocesses, temporary files, `mimetypes`, and the copy and rename in `save_snap`. The text `ffprobe` prints is a parameter, and only the duration taken from it is modelled. The file written, resized or opened is recorded as content, without its errors.
- **Logging, the clock and sleeping.** Neither the `time()` stamps in the mark events nor the `while True` loops are modelled. One turn of each loop is one method call.
- **Scripts and packaging.** Main.py, both example.py files and setup.py are not modelled.
- **The client's `send_to_story`.** Its indexing of a response object is not modelled. The engines take its answer, or its exception, as a parameter.
- **Engine hooks.** The `initialize(**kwargs)` hook and `log` are not modelled. Hooks are flags, and their effects on the engine are not modelled.
- **The bot's friend lists.** These are lists of names, because the bot's client is not part of this model.
- **`bot_id`.** The four uuid hex characters are never read and are not modelled.
- Poller.Snapchat.Start, Poller.Snapchat.Begin: a friend name that is not a string is reported as TypeError. Python would keep it in the list, and would raise only when `set` cannot hash it.
- Client.PendingRecords: a non-empty pending value that is not a list of dicts is reported as TypeError. Python would iterate a dict's keys or a string's characters, test `'c_id'` by substring, and map a list item to a record of Nones.
- Client.CollectFriendStories, Client.TagStories: the story objects are values, so the `sender` written into them is not seen through the response they came from.
- Snaps.Snap.Upload: the client's answer is a parameter. For the polling engine it is what `Client.UploadResult` gives for the snap's file; the two are not linked in the model.
- Snaps.FromFileChoice: `math.ceil` returns a float in Python 2, and the model keeps the int.
- Utils.ParseInt: models `int()` on decimal text with optional sign and surrounding whitespace only. Underscores, non-ASCII digits and Python 2 longs are not modelled.
- Utils.VideoDuration: `math.ceil` of an integer is the integer; Python 2's float result is not modelled.
- Cycle.CollectSnaps: states each snap's contents, not that the snap objects are pairwise distinct.
- Snaps.Snap.constructor: the temporary file's name is a parameter, and the content written or resized is recorded without performing the write.
