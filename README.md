# ZyChat client core, modelled in Dafny

ZyChat is a React/Firebase chat client. It has one-to-one and group chats,
end-to-end encrypted messages and files, voice and video calls over WebRTC,
24-hour statuses, connection requests, an admin area and an AI assistant.
This project models the logic of that client in Dafny and proves what the
code promises about it:

- **Call session** (`call_context.dfy`). The `CallSession` class holds the
  client's call state cells, the media streams, the peer connection and the
  signaling subscription.
  - Its methods are `startCall`, `acceptCall`, `rejectCall`, `endCall`,
    `cleanupCall`, the three signaling listeners, the peer-connection
    callbacks, the track toggles and the incoming-call listener.
  - Streams and the peer connection are classes whose fields change in place.
  - The database is the `RtdbService.Database` object the session shares.
- **Database rules** (`rtdb_service.dfy`). The Realtime Database is a
  `Database` class holding maps of users, username index, chats, messages,
  calls, connection requests, connections and statuses. It covers:
  - 1:1 chat ids and idempotent chat creation, and group chats;
  - call records and their status/`endedAt` rule;
  - the connection-request protocol and its status precedence;
  - user search and its 20-result limit;
  - status expiry after 24 hours;
  - call history, filtered and sorted newest first;
  - the ban cascade.
- **Encryption** (`encryption_service.dfy`, `encryption_context.dfy`, with the
  browser primitives in `webcrypto.dfy`).
  - The chat-key cache/store/generate lookup.
  - The plaintext and placeholder fallbacks.
  - The 12-byte IV + ciphertext file framing.
  - The byte/binary-string loops.
  - The ECDH and password-based wrappers.
- **Accounts** (`auth_service.dfy`, `auth_page.dfy`, `routes.dfy`).
  - Username normalisation and availability.
  - Email registration.
  - The Google username loop `base`, `base1`, `base2`, …
  - The sign-in form's blur and validation rules, the submitted fields and
    the post-login redirect.
  - The two route guards.
- **Smaller pure pieces**.
  - The AI assistant's local storage and prompt contents (`ai_service.dfy`).
  - Cloudinary upload checks and URL rewriting (`cloudinary_service.dfy`).
  - The admin user filter (`admin_users_page.dfy`).
  - The chat header and chat list labels (`chat_header.dfy`,
    `chat_list_item.dfy`).
  - The calls page labels (`calls_page.dfy`).
  - The call screen's duration format and toggles (`call_screen.dfy`).
  - The status viewer (`status_page.dfy`).
  - Avatar initials (`avatar.dfy`).

Some inputs are not computed by the model and are passed in as parameters:

- Time (`now`, integers in milliseconds).
- Randomness (`Random = nat -> Byte`, or a secret string for ECDH pairs).
- Database push keys (fresh ids, or a `mint` function).
- The order in which a snapshot is iterated (a `seq`).
- Locale-formatted dates (opaque strings).
- Whether an asynchronous step fails (a `Fault`/`StoreFault` value or a
  `Result`).

`Common` holds the JavaScript string operations the code relies on:

- `toLowerCase`/`toUpperCase` on ASCII letters;
- `trim`, `includes`, `split`, `join`;
- number formatting and `padStart(2, "0")`;
- the default array sort order.

## Model

| member | source | states |
|---|---|---|
| CallContext.MediaTracks | src/context/CallContext.jsx:77-83 | getUserMedia always yields an audio track first, plus a video track exactly for video calls; all tracks start enabled and live |
| CallContext.StopAllTwice | src/context/CallContext.jsx:54-62 | stopping every track of a stream is idempotent, so a second teardown changes no track |
| CallContext.FirstOfKind | src/context/CallContext.jsx:278 | the chosen track is the first of the requested kind, and None means the stream has no track of that kind |
| CallContext.Toggled | src/context/CallContext.jsx:276-297 | only the first track of the kind changes, and only its enabled flag; without such a track nothing changes |
| CallContext.ToggleTwice | src/context/CallContext.jsx:276-297 | two toggles of the same kind restore every track |
| CallContext.AcceptedRecord | src/context/CallContext.jsx:200 | the record after acceptCall's write has status accepted and keeps the stored offer |
| CallContext.MediaStream.StopTracks | src/context/CallContext.jsx:55 | the loop stops every track and keeps each track's kind and enabled flag |
| CallContext.MediaStream.AddTracks | src/context/CallContext.jsx:98-101 | the stream gains exactly the given tracks, in order, after its own |
| CallContext.MediaStream.ToggleFirst | src/context/CallContext.jsx:278-281 | flips the first track of the kind and answers true exactly when that track is now disabled |
| CallContext.PeerConnection.AddTracks | src/context/CallContext.jsx:140-142 | the senders gain the local tracks in order; descriptions, candidates and signaling state are untouched |
| CallContext.PeerConnection.AddIceCandidate | src/context/CallContext.jsx:161-162 | a candidate is appended only when a remote description is set; nothing else changes |
| CallContext.CallSession.constructor | src/context/CallContext.jsx:34-45 | a new session is idle: no call, status, streams, connection, subscription, pending call or caller, UI closed |
| CallContext.CallSession.CleanupCall | src/context/CallContext.jsx:48-74 | leaves the session idle, closes the old connection, stops every track of both old streams; on an idle session it changes no state cell |
| CallContext.CallSession.EndCall | src/context/CallContext.jsx:264-273 | writes "ended" with its time only when there is a current call and the write succeeds, always cleans up, and changes nothing when already idle |
| CallContext.CallSession.StartCall | src/context/CallContext.jsx:117-181 | a no-op without a user; a media or store failure leaves no call record; on success the call is outgoing, status ringing, UI open, the offer stored, the three listeners subscribed; any failure is reported and resets the call; a media failure leaves the session idle, while a later failure runs the cleanup of the render the call began in, so a stream opened from an idle session survives with its tracks |
| CallContext.CallSession.AcceptCall | src/context/CallContext.jsx:184-248 | a no-op without a pending call or user; otherwise "accepted" is written, the pending call cleared, and the call becomes connected exactly when the store held an offer and answering succeeded; a media failure leaves the session idle, while a store or answering failure resets the call with the cleanup of the render the accept began in, so a stream opened here survives |
| CallContext.CallSession.Connect | src/context/CallContext.jsx:200-243 | after the "accepted" write: the connection carries the local tracks, the offer is answered when one is stored, and the callee's candidate and status listeners are subscribed; a failure resets the call and stops and clears only the streams the handler's render saw |
| CallContext.CallSession.RejectCall | src/context/CallContext.jsx:251-261 | with a pending call and a successful write, stores "rejected" and clears the pending call and caller; never touches streams, connection or subscription |
| CallContext.CallSession.OnAnswer | src/context/CallContext.jsx:154-159 | the answer is applied, and the call becomes connected, only in have-local-offer; otherwise nothing changes |
| CallContext.CallSession.OnCandidate | src/context/CallContext.jsx:160-164 | an inbound candidate is applied once a remote description exists and dropped otherwise |
| CallContext.CallSession.OnStatusChange | src/context/CallContext.jsx:165-170 | the listener with the intended cleanup (as written: `OnStatusChangeAsWritten`, see Findings): mirrors the stored status; the caller tears down on rejected or ended, the callee only on ended, and teardown stops the current streams |
| CallContext.CallSession.OnStatusChangeAsWritten | src/context/CallContext.jsx:165-170 | the listener with the cleanup closure it was created with: it clears the call but leaves in place any stream that closure did not see |
| CallContext.CallSession.OnConnectionStateChange | src/context/CallContext.jsx:106-110 | "disconnected" and "failed" end the call (leaving the session idle); every other state changes nothing |
| CallContext.CallSession.OnLocalCandidate | src/context/CallContext.jsx:90-94 | a gathered candidate is appended to the call's stored candidates; an empty event writes nothing |
| CallContext.CallSession.OnTrack | src/context/CallContext.jsx:97-103 | the remote stream becomes a new stream holding the event's tracks |
| CallContext.CallSession.ToggleMute | src/context/CallContext.jsx:276-285 | false without a stream or audio track; otherwise flips the first audio track and returns true exactly when it is now disabled |
| CallContext.CallSession.ToggleVideo | src/context/CallContext.jsx:288-297 | as ToggleMute, for the first video track |
| CallContext.CallSession.OnIncomingCall | src/context/CallContext.jsx:303-309 | a ringing call is adopted, with its caller's profile, only when there is neither a current nor a pending call; otherwise ignored |
| CallContext.StaleCleanupScenario | src/context/CallContext.jsx:153-180 | a rejected outgoing video call, with the listener as written, leaves the session callless yet holding two unstopped local tracks |
| CallContext.StaleCatchScenario | src/context/CallContext.jsx:176-179 | an outgoing video call from an idle session whose store write fails is reported and callless, yet keeps a local stream with two unstopped tracks |
| CallContext.CurrentCleanupScenario | src/context/CallContext.jsx:48-74 | the same call with a cleanup that sees the current streams leaves the session idle and both tracks stopped |
| RtdbService.GetChatId | src/firebase/rtdbService.js:179-181 | the id is the two uids, smaller first in character order (see Left out), joined with "_" |
| RtdbService.GetChatIdSymmetric | src/firebase/rtdbService.js:179-181 | the chat id does not depend on argument order |
| RtdbService.DirectChat | src/firebase/rtdbService.js:193-202 | a created 1:1 chat is not a group, has exactly the two members and is created by the first uid |
| RtdbService.ChatsAfterCreate | src/firebase/rtdbService.js:186-207 | the chat id is present afterwards, an existing chat is left alone, and no other chat changes |
| RtdbService.CreateOrGetChatIdempotent | src/firebase/rtdbService.js:186-207 | creating the same pair again, in either order and at any time, changes nothing |
| RtdbService.NewCall | src/firebase/rtdbService.js:522-542 | a new call is ringing, has no end time, offer, answer or candidates, and started now |
| RtdbService.WithStatus | src/firebase/rtdbService.js:547-553 | sets the status, sets endedAt exactly for ended or rejected, and changes no other field |
| RtdbService.InsertKeepsSorted | src/firebase/rtdbService.js:658 | inserting a call into a list sorted newest first keeps it sorted |
| RtdbService.SortByStartDesc | src/firebase/rtdbService.js:658 | the sorted history is a permutation of its input and ordered by start time, newest first |
| RtdbService.SignalingListeners | src/firebase/rtdbService.js:596-638 | a listener is attached exactly when its callback is given |
| RtdbService.BannedProfile | src/firebase/rtdbService.js:79 | a banned profile is marked banned and offline and stamped with the update time, and otherwise unchanged; a missing profile becomes a partial record |
| RtdbService.UnbannedProfile | src/firebase/rtdbService.js:118-120 | an unbanned profile has isBanned cleared and the update time stamped, and is otherwise unchanged; a missing profile becomes a partial record |
| RtdbService.UnbanAfterBan | src/firebase/rtdbService.js:79-120 | unbanning a banned user restores the profile except that they stay offline and carry the later update time |
| RtdbService.BanNotice | src/firebase/rtdbService.js:96-105 | the notice is a sent "system" text message with the fixed removal text |
| RtdbService.ChatsAfterBan | src/firebase/rtdbService.js:92-93 | the uid is removed from every chat's members; nothing else about any chat changes |
| RtdbService.MessagesAfterBan | src/firebase/rtdbService.js:92-105 | each chat listing the uid gains the notice under a fresh id; other chats' messages are unchanged |
| RtdbService.BanAddsOneNotice | src/firebase/rtdbService.js:95-105 | a chat that listed the banned user gains exactly one message, the notice |
| RtdbService.BanOfLoneUserChangesNothing | src/firebase/rtdbService.js:109-111 | when no chat lists the uid, neither chats nor messages change |
| RtdbService.BanUpdates | src/firebase/rtdbService.js:86-107 | the forEach over the chats builds exactly the banned chats and messages, and reports an update exactly when some chat listed the uid |
| RtdbService.NewStatus | src/firebase/rtdbService.js:446-452 | a status expires 24 hours after it is created; a missing caption becomes "" |
| RtdbService.StatusLivesOneDay | src/firebase/rtdbService.js:451-470 | a posted status is listed exactly while less than 86400000 ms have passed |
| RtdbService.SearchMatches | src/firebase/rtdbService.js:855-866 | exactly the users that are not the caller, not banned, and whose lowercased username or display name contains the query |
| RtdbService.SearchUsers | src/firebase/rtdbService.js:846-869 | the first 20 matches in store order; every result matches |
| RtdbService.GetUserStatuses | src/firebase/rtdbService.js:461-477 | the unexpired statuses of the snapshot, in snapshot order (LiveStatuses) |
| RtdbService.LiveStatuses | src/firebase/rtdbService.js:466-470 | exactly the statuses not yet expired, in order, never more than the input |
| RtdbService.IncomingCalls | src/firebase/rtdbService.js:574-591 | the calls to the user that are ringing, in snapshot order (RingingCalls) |
| RtdbService.RingingCalls | src/firebase/rtdbService.js:584-588 | exactly the ringing calls to the user, in order, never more than the input |
| RtdbService.Involving | src/firebase/rtdbService.js:649-654 | exactly the calls the user placed or received |
| RtdbService.GetCallHistory | src/firebase/rtdbService.js:643-660 | the user's calls, a permutation of the matching ones, newest first |
| RtdbService.Database.GetUser | src/firebase/rtdbService.js:26-29 | the stored profile, or None exactly when there is none |
| RtdbService.Database.GetConnectionStatus | src/firebase/rtdbService.js:745-768 | connected, else pending_sent, else pending_received, else none, each exactly when the earlier ones fail |
| RtdbService.Database.AreUsersConnected | src/firebase/rtdbService.js:837-841 | true exactly when the status is connected |
| RtdbService.Database.CreateOrGetChat | src/firebase/rtdbService.js:186-207 | returns the pair's id and writes the 1:1 chat only when missing; nothing else changes |
| RtdbService.Database.CreateGroupChat | src/firebase/rtdbService.js:212-239 | a new group chat whose members are the given ids plus the creator, with a missing icon stored as null |
| RtdbService.Database.CreateCall | src/firebase/rtdbService.js:522-542 | stores a ringing call under the fresh id |
| RtdbService.Database.UpdateCallStatus | src/firebase/rtdbService.js:547-553 | the call's status changes as WithStatus says; nothing else in the database changes |
| RtdbService.Database.SetCallOffer | src/firebase/rtdbService.js:558-560 | stores the offer; nothing else changes |
| RtdbService.Database.SetCallAnswer | src/firebase/rtdbService.js:562-564 | stores the answer; nothing else changes |
| RtdbService.Database.AddIceCandidate | src/firebase/rtdbService.js:566-569 | appends the candidate and keeps every earlier one |
| RtdbService.Database.AcceptConnectionRequest | src/firebase/rtdbService.js:705-720 | adds both directions of the connection, removes the request, keeps connections symmetric; both sides then see connected |
| RtdbService.Database.RemoveConnectionRequest | src/firebase/rtdbService.js:725-740 | rejecting or cancelling removes exactly that request |
| RtdbService.Database.SendConnectionRequest | src/firebase/rtdbService.js:667-700 | in order: an existing request fails "Request already sent", a reverse request auto-accepts ("connected"), an existing connection fails "Already connected", otherwise a pending request ("sent") |
| RtdbService.Database.CreateStatus | src/firebase/rtdbService.js:441-456 | appends the new status to the user's list |
| RtdbService.Database.UnbanUser | src/firebase/rtdbService.js:118-120 | clears isBanned and stamps the update time on that user; nothing else changes |
| RtdbService.Database.BanUser | src/firebase/rtdbService.js:78-113 | marks the user banned and offline with the update time stamped, removes them from every chat and adds one notice to each such chat; nothing else changes |
| WebCrypto.Base64RoundTrip | src/services/encryptionService.js:103-110 | atob inverts btoa on every byte string |
| WebCrypto.TextRoundTrip | src/services/encryptionService.js:125-126 | decoding the stand-in three-byte encoding of a string gives the string back (not UTF-8; see Left out) |
| WebCrypto.OpenSeal | src/services/encryptionService.js:128-135 | AES-GCM decryption under the same key and IV inverts encryption |
| WebCrypto.SharedKeyAgrees | src/services/encryptionService.js:68-85 | both parties derive the same ECDH key |
| EncryptionService.GenerateIV | src/services/encryptionService.js:90-92 | exactly IV_LENGTH (12) random bytes |
| EncryptionService.GenerateChatKey | src/services/encryptionService.js:326-338 | a generated chat key can always be imported |
| EncryptionService.GenerateKeyPair | src/services/encryptionService.js:11-29 | a generated pair agrees with every other generated pair on the shared key |
| EncryptionService.ArrayBufferToBase64 | src/services/encryptionService.js:97-104 | the loop's binary string, once btoa'd, decodes back to the buffer's bytes |
| EncryptionService.Base64ToArrayBuffer | src/services/encryptionService.js:109-116 | the loop yields exactly the bytes strict base64 decodes, and fails exactly when strict decoding fails (see Left out) |
| EncryptionService.TextOrValue | src/services/encryptionService.js:380-381 | `text \|\| obj \|\| ''`: a non-empty text field, else the object, else "" |
| EncryptionService.EncryptWithChatKey | src/services/encryptionService.js:343-373 | encrypted with a fresh IV exactly when the key imports; otherwise the plaintext fallback |
| EncryptionService.DecryptWithChatKey | src/services/encryptionService.js:378-408 | passes unencrypted values through and gives "[Encrypted message]" on any failure |
| EncryptionService.ChatKeyRoundTrip | src/services/encryptionService.js:343-408 | decrypting what was encrypted with the same chat key gives the message back, also through the plaintext fallback except for the empty message |
| EncryptionService.EncryptMessage | src/services/encryptionService.js:121-147 | encrypted exactly when the shared key derives; otherwise the plaintext fallback |
| EncryptionService.DecryptMessage | src/services/encryptionService.js:152-177 | passes strings and unencrypted objects through, "[Unable to decrypt message]" on null input or any failure |
| EncryptionService.EcdhRoundTrip | src/services/encryptionService.js:121-177 | a message encrypted by one party for another decrypts on the other side to the message |
| EncryptionService.EncryptFile | src/services/encryptionService.js:182-212 | an octet-stream blob with the original name and type and the IV in base64, or the file itself when the key does not derive |
| EncryptionService.DecryptFile | src/services/encryptionService.js:217-241 | None when the download, key derivation or IV fails; otherwise a blob with the original type |
| EncryptionService.FileRoundTrip | src/services/encryptionService.js:182-241 | a file encrypted for a recipient decrypts to its original bytes and type |
| EncryptionService.EncryptForStorage | src/services/encryptionService.js:246-282 | a 16-byte random salt and a random IV, both in base64 |
| EncryptionService.DecryptFromStorage | src/services/encryptionService.js:287-321 | malformed base64 is an error that escapes (not caught) |
| EncryptionService.StorageRoundTrip | src/services/encryptionService.js:246-321 | data encrypted for storage decrypts under the same password |
| EncryptionContext.LookupChatKey | src/context/EncryptionContext.jsx:63-90 | cached key first, then the stored key (now cached), then a new key written with its time and cached; a failed read or write gives null and changes nothing; a stored key is never replaced |
| EncryptionContext.LookupKeepsCacheAgreement | src/context/EncryptionContext.jsx:63-90 | every usable cached key stays equal to the stored key |
| EncryptionContext.LookupIsStable | src/context/EncryptionContext.jsx:63-90 | once a key has been returned, every later lookup returns the same key: a conversation's key never changes |
| EncryptionContext.EncryptForKey | src/context/EncryptionContext.jsx:93-104 | no key gives the plaintext fallback; a key gives the chat-key encryption |
| EncryptionContext.DecryptForKey | src/context/EncryptionContext.jsx:117-121 | no key gives "[Encryption key not available]" |
| EncryptionContext.MessageRoundTrip | src/context/EncryptionContext.jsx:93-126 | a message encrypted in a conversation decrypts, on a later lookup, to the message |
| EncryptionContext.GeneratedKeyIsUsable | src/context/EncryptionContext.jsx:76-84 | a key generated on a miss is truthy and importable |
| EncryptionContext.SealFile | src/context/EncryptionContext.jsx:129-172 | the encrypted blob is the 12-byte IV followed by the ciphertext, so its length is 12 plus the ciphertext's; no key gives the file itself |
| EncryptionContext.OpenFile | src/context/EncryptionContext.jsx:175-210 | no key or no download gives the original url; a decrypted blob has the original type |
| EncryptionContext.FileFramingRoundTrip | src/context/EncryptionContext.jsx:158-187 | splitting at byte 12 inverts the framing: a sealed file decrypts to its bytes and type |
| EncryptionContext.EncryptionProvider.GetChatKey | src/context/EncryptionContext.jsx:63-90 | the cache and store change exactly as LookupChatKey says |
| EncryptionContext.EncryptionProvider.EncryptMessage | src/context/EncryptionContext.jsx:93-104 | the payload and new state are those of a lookup followed by EncryptForKey |
| EncryptionContext.EncryptionProvider.DecryptMessage | src/context/EncryptionContext.jsx:107-126 | strings and unencrypted values pass through without a lookup; encrypted ones decrypt under the looked-up key |
| EncryptionContext.EncryptionProvider.EncryptFile | src/context/EncryptionContext.jsx:129-172 | the buffer written at offsets 0 and 12 is exactly SealFile's framing |
| EncryptionContext.EncryptionProvider.DecryptFileUrl | src/context/EncryptionContext.jsx:175-210 | the result and new state are those of a lookup followed by OpenFile |
| AuthService.NormalizeUsername | src/firebase/authService.js:32-33 | the normalised name is lowercase with no surrounding spaces |
| AuthService.NormalizeIdempotent | src/firebase/authService.js:32-33 | normalising twice equals normalising once |
| AuthService.RegisteredProfile | src/firebase/authService.js:45-58 | role user, not banned, online, no avatar, the default about text, trimmed display name, phone trimmed or "" |
| AuthService.RegisterWithEmail | src/firebase/authService.js:24-73 | a name with ".", "#", "$", "[", "]" or an ASCII control character fails in `ref` before any account exists; a taken name then fails with "Username already exists…", also before any account exists; a sign-up error is passed on; otherwise profile and index are written and the name is then taken; the empty name counts as taken once anyone has registered |
| AuthService.TakenNames | src/firebase/authService.js:15-19 | a name is taken exactly when the index holds it, or when it is empty and the index is not, since the empty key reads the whole index |
| AuthService.CheckUsernameAvailable | src/firebase/authService.js:15-19 | the lowercased name is available exactly when the index has no entry for it and it is not the empty name of a non-empty index; a name that makes no valid path never reaches the lookup, because the callers stop first (`RegisterWithEmail` with the invalid-path error, and generated names are valid by `CandidatePathValid`) |
| AuthService.AvailabilityIgnoresCase | src/firebase/authService.js:16 | a name and its lowercase form are equally available, because the lookup lowercases first |
| AuthService.EmptyNameFreeIffIndexEmpty | src/firebase/authService.js:15-19 | the empty name is free exactly when nobody has registered |
| AuthService.UsernamePath | src/firebase/authService.js:16 | the index path of a name is valid exactly when the name has no forbidden character |
| AuthService.CandidatePathValid | src/firebase/authService.js:96-103 | every generated name makes a valid index path, so a Google sign-in never meets the invalid-path error |
| AuthService.KeepAlnum | src/firebase/authService.js:96 | keeps exactly the ASCII letters and digits |
| AuthService.UsernameBase | src/firebase/authService.js:96 | the email's local part, lowercased, with only [a-z0-9] kept |
| AuthService.Candidate | src/firebase/authService.js:97-103 | candidate 0 is the base; candidate n extends the base |
| AuthService.CandidateInjective | src/firebase/authService.js:97-103 | different counters give different candidates |
| AuthService.GenerateUsername | src/firebase/authService.js:97-103 | the loop ends with the first free candidate: it is free and every earlier one is taken |
| AuthService.EmptyBaseSkipsEmpty | src/firebase/authService.js:97-103 | an empty base with a non-empty index never yields the empty name: the chosen candidate is a bare number |
| AuthService.GoogleProfile | src/firebase/authService.js:106-119 | display name falls back to the username, avatar to null, phone to "" |
| AuthService.LoginWithGoogle | src/firebase/authService.js:86-126 | changes nothing for an existing profile; otherwise writes the profile and index entry under the first free candidate, where the empty name counts as taken once anyone has registered |
| AiService.LastN | src/services/aiService.js:55 | the last min(n, length) entries, in order |
| AiService.LastNIdempotent | src/services/aiService.js:55 | trimming twice equals trimming once |
| AiService.ContentRole | src/services/aiService.js:150 | "user" stays "user"; every other role becomes "model" |
| AiService.WithoutId | src/services/aiService.js:101 | exactly the reminders with a different id |
| AiService.WithoutIdAppend | src/services/aiService.js:101 | the filter distributes over concatenation, so order is kept |
| AiService.WithoutIdAbsent | src/services/aiService.js:99-104 | deleting an id that is not present keeps the list |
| AiService.FullMessage | src/services/aiService.js:156-159 | the context prefix is added exactly when a context is given and chats may be read |
| AiService.AiStorage.SaveAPIKey | src/services/aiService.js:9-16 | after saving, the assistant is configured exactly when the key is longer than 10 |
| AiService.AiStorage.RemoveAPIKey | src/services/aiService.js:22-24 | afterwards the assistant is not configured |
| AiService.AiStorage.GetAISettings | src/services/aiService.js:26-33 | without stored settings: no chat access, reminders allowed, "helpful" |
| AiService.AiStorage.SaveAIHistory | src/services/aiService.js:53-57 | stores the last 100 entries; a short history is stored whole |
| AiService.AiStorage.AddReminder | src/services/aiService.js:84-94 | appends one uncompleted reminder and keeps the earlier ones |
| AiService.AiStorage.DeleteReminder | src/services/aiService.js:99-104 | no reminder with the id remains; the rest keep their order |
| AiService.AiStorage.BuildContents | src/services/aiService.js:144-164 | the last ≤10 history entries with mapped roles, then one user entry with the full message |
| AiService.AiStorage.SendMessageToAI | src/services/aiService.js:133-206 | fails "API key not configured" without a key; a reply extends the history with the user and assistant entries, trimmed to 100, and is returned with its action; a "reminder" action adds one reminder; otherwise reminders, key and settings are unchanged |
| AiService.ExchangeEndsHistory | src/services/aiService.js:200-206 | after an exchange the saved history ends with the user's message and then the reply |
| CloudinaryService.Folder | src/services/cloudinaryService.js:47-105 | every upload goes to a folder under "zychat/" |
| CloudinaryService.ResourceType | src/services/cloudinaryService.js:86-105 | audio uploads as "video", files as "raw", everything else as "image" |
| CloudinaryService.PrepareUpload | src/services/cloudinaryService.js:17-24 | fails without a cloud name, then without a preset; otherwise carries the preset and folder |
| CloudinaryService.Upload | src/services/cloudinaryService.js:17-45 | configuration errors come first; a failed response is an error with a non-empty message |
| CloudinaryService.Transformations | src/services/cloudinaryService.js:113-124 | w_ and h_ only when given, then q_ and f_ (default auto), then c_fill |
| CloudinaryService.GetOptimizedImageUrl | src/services/cloudinaryService.js:110-127 | a url without "cloudinary" or without exactly one "/upload/" is returned unchanged; otherwise the transformations are inserted after "/upload/" |
| CloudinaryService.RewriteInsertsOneSegment | src/services/cloudinaryService.js:115-126 | a rewritten url keeps the prefix and suffix exactly |
| Routes.PrivateRoute | src/router/PrivateRoute.jsx:6-27 | loader while loading; signed out goes to /auth carrying the location; banned goes to /auth marked banned; otherwise the children |
| Routes.AdminRoute | src/router/AdminRoute.jsx:6-27 | loader while loading; signed out goes to /auth carrying the location; non-admins go to /app; otherwise the children |
| Routes.AdminRouteIgnoresBan | src/router/AdminRoute.jsx:22-26 | a banned admin passes the admin guard but not the private guard |
| Routes.SignedOutAlike | src/router/PrivateRoute.jsx:18-20 | both guards treat a signed-out visitor alike |
| AuthPage.HandleUsernameBlur | src/pages/auth/AuthPage.jsx:60-85 | nothing on an empty name or in login mode; the length error first, then the charset error; availability is queried only when both pass |
| AuthPage.ValidateForm | src/pages/auth/AuthPage.jsx:87-121 | a missing email or password fails first; in login mode nothing else is checked |
| AuthPage.ValidRegistration | src/pages/auth/AuthPage.jsx:93-118 | a registration form passes exactly when all five registration checks pass |
| AuthPage.FailureHasMessage | src/pages/auth/AuthPage.jsx:87-121 | every rejection carries a non-empty message |
| AuthPage.LengthRulesDisagree | src/pages/auth/AuthPage.jsx:63-99 | the raw-length rule accepts "ab " while the blur rule on the normalised name reports it too short |
| AuthPage.RegistrationRequest | src/pages/auth/AuthPage.jsx:131-141 | username normalised, display name, phone and email trimmed, password unchanged |
| AuthPage.SubmittedUsernameIsNormal | src/pages/auth/AuthPage.jsx:131-141 | the submitted username is already normal |
| AuthPage.HandleSubmit | src/pages/auth/AuthPage.jsx:123-149 | a request is sent exactly when validation passes; the error is cleared exactly on success |
| AuthPage.RedirectTarget | src/pages/auth/AuthPage.jsx:35-40 | only signed-in, unbanned users are redirected: to the remembered path, otherwise /admin or /app |
| AuthPage.ArrivalError | src/pages/auth/AuthPage.jsx:43-47 | the restricted message appears exactly when arriving banned |
| AuthPage.GuardAndPageAgree | src/pages/auth/AuthPage.jsx:35-47 | a visitor sent to /auth by the private guard returns to where they were; a banned one is not redirected and sees the restricted message |
| AdminUsersPage.FilteredUsers | src/pages/admin/AdminUsersPage.jsx:26-42 | exactly the users passing the tab and search filters |
| AdminUsersPage.FilteredUsersAppend | src/pages/admin/AdminUsersPage.jsx:26-42 | the filter distributes over concatenation, so it keeps the users' order |
| AdminUsersPage.AllTabWithoutSearch | src/pages/admin/AdminUsersPage.jsx:26-42 | the All tab with an empty search keeps every user |
| AdminUsersPage.TabCountsAddUp | src/pages/admin/AdminUsersPage.jsx:133-146 | the Active count plus the Banned count is the All count |
| AdminUsersPage.TabCountsMatchLists | src/pages/admin/AdminUsersPage.jsx:133-146 | each tab's count is the length of its unsearched list |
| AdminUsersPage.ToggledRole | src/pages/admin/AdminUsersPage.jsx:79 | admin becomes user; any other role becomes admin |
| AdminUsersPage.ToggleRoleTwice | src/pages/admin/AdminUsersPage.jsx:79 | toggling user or admin twice restores it |
| ChatHeader.TypingText | src/components/chat/ChatHeader.jsx:54-58 | null for nobody, "typing..." for one, "n people typing..." for more |
| ChatHeader.FormatLastSeen | src/components/chat/ChatHeader.jsx:36-49 | just now, minutes, hours, yesterday or the locale date, by elapsed time |
| ChatHeader.LastSeenUnits | src/components/chat/ChatHeader.jsx:40-45 | the minutes shown are 1..59 and the hours 1..23 |
| ChatHeader.Header | src/components/chat/ChatHeader.jsx:13-34 | group subtitle is the member count, 1:1 shows Online, Last seen or Offline, typing replaces it, call buttons only for 1:1 |
| ChatListItem.OtherMember | src/components/chat/ChatListItem.jsx:19-20 | a member other than the viewer, or none exactly when every member is the viewer |
| ChatListItem.OtherMemberIsFirst | src/components/chat/ChatListItem.jsx:19-20 | the chosen member is the first that differs from the viewer |
| ChatListItem.OtherMemberOfPair | src/components/chat/ChatListItem.jsx:19-20 | in a 1:1 chat each side sees the other |
| ChatListItem.MessagePreview | src/components/chat/ChatListItem.jsx:115-129 | "No messages yet", the photo and voice labels, the file label with its name, or the text |
| ChatListItem.PreviewOfText | src/components/chat/ChatListItem.jsx:115-129 | a text message previews as its text; a photo is never shown as "no messages" |
| ChatListItem.DisplayInfo | src/components/chat/ChatListItem.jsx:95-110 | groups show their name or "Group" and never online; unknown users show "Loading..." |
| ChatListItem.FormatTime | src/components/chat/ChatListItem.jsx:75-92 | "" without a time (also the `formatTime` of `src/pages/app/CallsPage.jsx:43-59`); time today, Yesterday, weekday within a week, month and day beyond |
| CallsPage.Row | src/pages/app/CallsPage.jsx:23-31 | outgoing exactly when the viewer placed the call; the other party is the callee then, the caller otherwise |
| CallsPage.RowNamesTheOtherParty | src/pages/app/CallsPage.jsx:23-31 | in a call between two users the row names the other one |
| CallsPage.CallStatusLabel | src/pages/app/CallsPage.jsx:68-77 | ended is Outgoing/Incoming, rejected is Not answered/Declined, others are shown raw |
| CallsPage.StatusLabelInjective | src/pages/app/CallsPage.jsx:68-77 | distinct statuses, and directions of ended or rejected calls, get distinct labels |
| CallsPage.CallIcon | src/pages/app/CallsPage.jsx:61-66 | the video or phone glyph, then the direction arrow |
| CallScreen.FormatDuration | src/components/calls/CallScreen.jsx:80-84 | minutes, ":", then the seconds as two digits |
| CallScreen.FormatDurationInjective | src/components/calls/CallScreen.jsx:80-84 | different durations are shown differently |
| CallScreen.StatusText | src/components/calls/CallScreen.jsx:157-161 | Calling..., Connecting..., the duration, or "" otherwise |
| CallScreen.Rendered | src/components/calls/CallScreen.jsx:109-116 | nothing without a call; video elements exactly for video calls |
| CallScreen.ScreenState.HandleToggleMute | src/components/calls/CallScreen.jsx:86-89 | the mute flag is exactly what toggleMute returns |
| CallScreen.ScreenState.HandleToggleVideo | src/components/calls/CallScreen.jsx:91-94 | the video-off flag is exactly what toggleVideo returns |
| StatusPage.StatusViewer.OpenStatusViewer | src/pages/app/StatusPage.jsx:78-82 | views the statuses at the index and opens; the index is valid exactly when in range |
| StatusPage.StatusViewer.NextStatus | src/pages/app/StatusPage.jsx:84-91 | nothing without statuses; advances before the last; at the last closes and keeps the index; keeps the index in range |
| StatusPage.StatusViewer.PrevStatus | src/pages/app/StatusPage.jsx:93-97 | steps back only above 0, so the index stays in range |
| StatusPage.WalkToEnd | src/pages/app/StatusPage.jsx:84-91 | repeated nextStatus from a valid index reaches the last status and closes the viewer |
| StatusPage.StatusCountLabel | src/pages/app/StatusPage.jsx:139-141 | "Tap to add status" for none; otherwise the count first |
| StatusPage.PluralIffMany | src/pages/app/StatusPage.jsx:139-141 | the label ends in "s" exactly when there is more than one |
| Avatar.GetInitials | src/components/common/Avatar.jsx:13-20 | "?" for no name; two or more pieces give the uppercased first letters of the first two; otherwise the first two characters uppercased |
| Avatar.DoubleSpaceInitials | src/components/common/Avatar.jsx:15-18 | "Ann  Lee" gives "AUNDEFINED" |
| Avatar.GetInitialsCorrected | src/components/common/Avatar.jsx:13-20 | "?" for no name; otherwise one or two characters, each an uppercased character of the name |
| Avatar.AgreeOnSingleSpaces | src/components/common/Avatar.jsx:13-20 | on names without empty pieces the corrected version agrees with the original |

## Left out

- Firebase I/O is modelled as reads and writes of in-memory maps. Not modelled:
  - listener delivery and timing;
  - `serverTimestamp` (a `now` parameter instead);
  - presence and `onDisconnect` (`src/firebase/rtdbService.js:127-172`).
- Subscriptions that only enrich listener data are not modelled. These are the chats, messages, typing, contact statuses and connection lists.
- Profile updates and group-member edits beyond `banUser`/`unbanUser` are not modelled.
- WebRTC is reduced to which descriptions, candidates and senders a connection holds. Not modelled:
  - SDP content;
  - ICE;
  - the STUN server list.
- AES-GCM, ECDH, PBKDF2 and JWK import/export are stand-ins in `WebCrypto`, with the round-trip properties the code relies on. They are not the real algorithms.
- `btoa`/`atob` are modelled as strict base64 (RFC 4648, section 4): padded, no whitespace.
- `EncryptionService.Base64ToArrayBuffer`: the browser's `atob` is forgiving. It also accepts input without padding and with ASCII whitespace, which the model rejects as a failure.
- `TextEncoder` is a fixed three-byte encoding per character. It is not real UTF-8, so `WebCrypto.TextRoundTrip` is proved for that stand-in only.
- Async interleavings are not modelled. Each handler runs to completion. In particular:
  - two concurrent `getChatKey` calls for a new chat;
  - the async incoming-call listener.
- `CallContext.CallSession.OnIncomingCall`: with several ringing calls in one snapshot, the source's guard reads the state of the render and lets each call through, so the last one wins. The model adopts the first and ignores the rest.
- Timers and audio are not modelled: the duration counter, ringback, ringtone, typing timeout and recording.
- Network fetches are parameters: the Gemini request, the Cloudinary POST and blob downloads. Not modelled:
  - `URL.createObjectURL` (a decrypted file is returned as its blob);
  - `buildSystemPrompt` (`src/services/aiService.js:109-128`);
  - the JSON action extraction (`src/services/aiService.js:209-219`); the parsed action is a parameter of `SendMessageToAI`;
  - `JSON.parse` of stored data.
- Locale formatting (`toLocaleTimeString`, `toLocaleDateString`, weekday and month names) is passed in as opaque strings.
- Case mapping changes ASCII letters only.
- Strings are sequences of Unicode scalar values, while JavaScript strings are sequences of UTF-16 code units. Lengths, indices and order therefore differ for characters outside the Basic Multilingual Plane:
  - `AuthPage.HandleUsernameBlur`: a length counts characters, not code units, so a name with non-BMP characters is shorter here than in the source.
  - `AuthPage.ValidateForm`: the password and username lengths count characters, not code units.
  - `Avatar.GetInitials`: "the first character" is a whole character; the source takes one code unit, half of a surrogate pair.
  - `Common.StrLess`: strings compare by scalar value; the source compares code units, which orders a non-BMP character before U+E000–U+FFFF.
  - `RtdbService.GetChatId`: uses `Common.StrLess`, so for such uids the order of the two halves can differ from the source's.
- Presentation-only files and subscription glue are not part of this model. These are the pages, layouts, `AuthContext`, `DataContext` and `ThemeContext`.
- `MessageInput`'s `formatRecordingTime` is not modelled separately. It is the same computation as `CallScreen.FormatDuration`.
- `CallsPage`'s `formatTime` (`src/pages/app/CallsPage.jsx:43-59`) is not modelled separately. It is the same computation as `ChatListItem.FormatTime`.
- `EncryptionContext.EncryptionProvider.DecryptMessage`: the "[Decryption failed]" branch is not reachable in the model. `decryptWithChatKey` catches every failure itself.
- `RtdbService.SearchUsers`, `RtdbService.GetUserStatuses`, `RtdbService.IncomingCalls`, `RtdbService.GetCallHistory`: snapshot iteration order is a parameter.
- `RtdbService.GetCallHistory`: a missing start time counts as 0, as in the source.
- `RtdbService.Database.UpdateCallStatus` and the call setters create a blank record when the call id is missing, as a multi-path write would.
- `AuthService.RegisterWithEmail`: the profile and index writes after the account is created are not modelled as failing.
- `AuthService.RegisterWithEmail`: a name containing "/" is kept as one flat index key. The database reads it as a nested path, so "a/b" would be looked up and written under the entry for "a", replacing it. The database's limit of 768 bytes on a key path is not modelled either, and the wording of the invalid-path error stands for the database library's message, which is not part of this model.
- `AuthService.RegisterWithEmail`: registering the empty name into an empty index is stored as an entry with key ""; the database would instead replace the whole index node with a single value.
- `AuthService.LoginWithGoogle`: the same for an empty candidate on an empty index.
- Other profile fields written by `updateUserProfile` are not modelled. Only the `updatedAt` stamp written by ban and unban is.
- `CloudinaryService.Transformations`: width and height are natural numbers, so a negative or fractional option is not modelled.
- `CallContext.CallSession.AcceptCall`: the callee's status listener mirrors the stored "accepted" status. This can replace the client-only "connected" shown just before. The model keeps that behaviour.
- `CallContext.CallSession.OnLocalCandidate`: both parties push to the same candidate list. The echo of a client's own candidates back to itself is not modelled.
- `CallContext.CallSession.OnConnectionStateChange` uses the session's current state. As attached in the source, its `endCall` closure is as old as the status listener's. That closure sees no current call, so it writes no "ended" status, and its cleanup leaves a stream opened after it was made running. This is the same stale-closure defect as the first two Findings rows; it has no scenario of its own.

## Findings

| source | as written | input that shows it | evidently intended | confidence | as-written member | corrected member |
|---|---|---|---|---|---|---|
| src/context/CallContext.jsx:153-180 | the signaling listeners call the `cleanupCall` closure of the render in which `startCall` began, when `localStream` was still null | an outgoing video call from an idle session that the callee rejects | the rejection stops the camera and microphone and clears the local stream | not executed | CallContext.StaleCleanupScenario | CallContext.CurrentCleanupScenario |
| src/context/CallContext.jsx:176-179 | the catch of `startCall` (and of `acceptCall`, 244-246) calls the `cleanupCall` closure of the render before `setLocalStream(stream)`, so the new stream is cleared from neither state nor hardware | `startCall("bob", "video")` from an idle session whose `createCall` rejects | the failure stops the camera and microphone and clears the local stream | not executed | CallContext.StaleCatchScenario | CallContext.CallSession.CleanupCall |
| src/components/common/Avatar.jsx:15-18 | the trimmed name is split on a single space, and an empty second piece interpolates `undefined` | "Ann  Lee" (two spaces) gives "AUNDEFINED" | the initials of the first two words, "AL" | not executed | Avatar.DoubleSpaceInitials | Avatar.GetInitialsCorrected |
