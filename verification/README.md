# jcqueue, verified

This project models the parts of the jcqueue message queue that hold its state and proves what they
keep. It covers the topic queue on binary heaps, the JCQ wire protocol with its parameter strings, the
linked list and the record file it is saved in, the request server saved on top of them over whole runs, the
push fan-out with its reference counts, the subscription index, and MD5.

Where the original works by changing things step by step, so does the model: heaps, lists, the store
file, the parser, the push server and the MD5 context are classes, and their methods are proved against
functions on values. Whole-run properties are then proved about those functions. `dafny verify
dfyconfig.toml` checks everything.

## What is proved

* **Topic.** Removing any slot of a heap takes out exactly that element and restores the order, under any reflexive
  total preorder; under a strict comparator removing the last slot can lose another element, and it is said exactly
  when. The four heaps of a topic partition the live messages in every reachable state, and every command does to
  them what a plain map from ids to slots says. A tick readies exactly the messages that are due. Over every run a
  message is live exactly when it was added and no del has found it in use or asleep since. Growing copies fewer
  than two elements per insertion and each operation makes at most floor(log2) swaps.
* **Wire protocol.** However a stream is cut, into any number of pieces, the same message is read and the same
  bytes are left over exactly when no piece ends right after the `data:` of a non-empty body or strictly inside
  the closing mark. What is printed is read back, byte for byte. Which bytes are a whole message, and which are
  refused, is given as a grammar, in both directions. A header line sets the field it names and no other.
* **Parameter strings.** The format check accepts exactly the blank strings and the renderings of one or
  more clean groups. Setting and reading are the operations on a list of pairs when the name occurs only as
  a whole key. On any string the check accepts, blank and missing ones included, reading back what was set works
  exactly when the value has no closing bracket and the name, looked for in the string with the name behind it,
  first occurs at the end or before an opening bracket. What any other name reads changes in three cases, which are
  given exactly.
* **List and store file.** The list is a ring; its operations are those of a sequence. The store file is a
  gap-free row of records that can be read in one way only. Saving a list in which any nodes, and any of the things
  in it, are already saved leaves the ring of the nodes on disk, although each thing writes to the same file between
  two nodes; records of others do not change; and saving once more changes no byte but the padding of strings.
  These laws pass from what a list holds to the list, so they hold for lists within lists.
* **Request server.** Over every run of edits to requesters and messages, writes by others to the same file, saves,
  and restarts from what was saved last, every save restores to one known value. A list read back visits the whole
  ring but keeps one node, so the server survives a save exactly when it has at most one requester with at most one
  message and no string is too long; what survives one restart survives every other. A list read back keeps its old
  count, and can be asked for messages only as often as it has them unless the count is right. Between two restarts
  every requester sends its messages in the order in which it was given them. Where each field lies in the
  file is given byte by byte.
* **Push.** A dispatch hands out the first message of every topic with subscribers, one copy for each subscription,
  so no such topic is passed over. Over every run, whatever the clients acknowledge and how often, the count of a
  message is its copies less its acknowledgements, it is deleted exactly when there were as many acknowledgements
  as copies, and while it is in use somebody is owed it: a copy is still to be pushed or acknowledged. When each
  copy is acknowledged at most once, it is in use exactly while somebody is owed it. The acknowledgement that
  deletes a message leaves somebody who is owed it exactly when some client acknowledged more copies of it than it
  was sent; after honest clients this is one acknowledgement too many, exactly when the count was one.
* **Subscription index.** The exact list of subscribers of every live topic after every run. It is the match
  relation, whoever came first, exactly when the two places that ask whether a keyword matches agree.
* **MD5.** The unrolled transform with its cheaper selections is section 3.4 of RFC 1321 on every state and
  block, and updating in pieces gives the digest of the whole, padded as in sections 3.1 and 3.2. The same operations
  on 32-bit vectors are those on numbers, and with them two digests of section A.5 are computed.

## What the code does that its design does not say

The model follows the code in each of these.

* A restored list holds its last node only, while its count is the old one (`data/list.c:536-541` never
  advances `prev`).
* A string record stored again with a larger maximum is moved to the end of the file under a header that
  still has the old length (`data/store.c:267-277`), which cuts the string short and leaves a file
  of records exactly when the bytes beyond the old length happen to be records themselves.
* `popFromList` goes by the count (`data/list.c:385-390`, `data/list.c:413-429`): when a list was read back with a count
  that is too high, it frees the list's own header once the nodes are used up.
* When the current requester is dropped nobody is current afterwards: the search for another has no predicate
  (`app_queue/request.c:247-249`), and such a search finds nothing (`data/list.c:90-92`).
* `restoreRequestServer` does not set the position of the server (`app_queue/request.c:329-341`). When what was in memory
  is taken for a position where there is no record, the next save answers -2 and nothing leads to the server.
* A message published with delay d becomes ready 2d after its creation: its due time is computed with the
  delay when it is built (`base_queue/message.c:23`) and pushed back again when it is added
  (`base_queue/topic.c:32`).
* A piece that ends right after `data:` leaves the parser expecting the mark again. The next piece is refused,
  unless the body goes on with `data:`; then a different body is read (`parser/jcq.c:144-159`).
* A parameter is looked for by substring (`parser/net_message.c:140`, `parser/net_message.c:175`), so a name
  that ends another key takes over that key's value and a name inside a value hides its own group.
* The router's add command updates the subscription index after `addTopic` has already done so
  (`base_queue/router.c:257-264`): everybody who was subscribed is listed, and served, twice.
* Topic names are compared without case when somebody subscribes (`base_queue/topic_router.c:63`) and with
  case when a topic is added (`app_queue/subscribe.c:407`), so who came first matters. A regular expression
  never counts in either place, since a match answers 1 and success is 0 (`util/regex.c:19`, `util/regex.h:3`).
* An acknowledged copy stays in the pushed list (`app_queue/push.c:294-301`): one client that acknowledges
  twice deletes a message others still have to be sent.
* A loop on `nextFromList` stops at the first NULL datum as if it were the end (`data/list.c:571`). A blank topic
  name puts a NULL in the topic list (`base_queue/topic_router.c:18-19`), and `tickTopics`
  (`base_queue/topic_router.c:91-104`) then never ticks a topic added later.

## Where the model departs from the text

* `base_queue/message.c:80` assigns where it means to compare, and the greater-than case returns nothing: the
  model compares and answers false.
* `secure/md5.h:7` makes words as wide as an `unsigned long`: the model's words are 32 bits.
* `parser/jcq.c:270` and `parser/jcq.c:276` look one byte past the buffer: the model asks for more data.
* `data/list.c:19-30` returns nothing for a good list, and `maxCount` is not initialised: the model takes the
  list as good, and the first value of `maxCount` as a parameter.
* `data/store.c:290` pads with whatever lies behind a one-byte buffer: the padding is a parameter, and may be
  different for every string.
* Uninitialised padding inside stored structures is taken to be zero.
* After a format error the parser carries over a stale length (`parser/jcq.c:104`): the model carries the
  bytes not yet read.
* `app_queue/subscribe.c:202` reads through a null pointer when the port is no port number: the model requires one.
* Allocation succeeds, and list, record and message counts stay within an `int`.

## Model

| member | source | states |
|---|---|---|
| Messages.Less | base_queue/message.c:70-86 | both comparators order by one key: due time where it counts, then priority |
| HeapOrder.SiftDownClosesAbove | data/heap.c:37-49 | sifting towards the root closes the gap above any slot, equal keys included |
| HeapOrder.SiftUpRestoresOrder | data/heap.c:52-72 | sifting towards the leaves closes what is left of the gap |
| HeapOrder.InsertCorrect | data/heap.c:77-101 | insertion keeps heap order and adds exactly the element |
| HeapOrder.RemoveCorrect | data/heap.c:104-122 | removing any live slot, the last included, keeps heap order and takes out exactly that element |
| HeapOrder.RootIsLeast | data/heap.c:31-34 | heap order makes the root least |
| HeapOrder.StrictComparatorLosesElement | data/heap.c:104-122 | for any comparator, removing the last slot removes its element exactly when the parent may stay above it, and the parent's element otherwise |
| HeapOrder.Log2Meaning | data/heap.c:37-72 | the logarithm of the bounds is the floor: its power of two is at most the number, and the next is more |
| HeapOrder.DownSwapsBound | data/heap.c:37-49 | a sift towards the root makes at most floor(log2) swaps of its slot count |
| HeapOrder.UpSwapsBound | data/heap.c:52-72 | a sift towards the leaves makes at most floor(log2) swaps of the live slots |
| HeapOrder.RemoveSwapsBound | data/heap.c:104-122 | both sifts of a removal together stay within one bound |
| Heaps.Heap.SiftDown | data/heap.c:37-49 | the loop in place is the recursive sift, and counts its swaps |
| Heaps.Heap.SiftUp | data/heap.c:52-72 | the loop in place is the recursive sift, and counts its swaps |
| Heaps.Heap.Insert | data/heap.c:77-101 | the array stays a heap, gains exactly the message, is replaced by one for twice as many when it is full, and growing has copied fewer than two elements per insertion |
| Heaps.Heap.Remove | data/heap.c:104-122 | answers slot k and removes exactly it, or answers null and changes nothing |
| Heaps.Heap.FindIndex | data/heap.c:156-165 | the first slot with the id, or -1 when there is none |
| Heaps.Heap.RootIsLeast | data/heap.c:31-34 | the first slot may stay above every element |
| TopicModel.StepFrame | base_queue/topic.c:31-138 | a command leaves messages with other ids alone, a key does not change while its message stays in its heap, and only add and del change which are live |
| TopicModel.LiveUntilDeleted | base_queue/topic.c:31-138 | over every run a message disappears only by del and appears only by add |
| TopicModel.StepMeaning | base_queue/topic.c:31-138 | what every command does to every field of every message: which heap, priority, due time and delay |
| TopicModel.LiveExactly | base_queue/topic.c:31-138 | over every run a message is live at the end exactly when it was there or was added and no del has found it being used or sleeping since |
| TopicModel.DueTimeLedger | base_queue/topic.c:73-122 | over every run the priority stays and the due time moves by exactly the delays of the reuse and wakeup commands that found the message |
| TopicModel.DelayedUntilDue | base_queue/topic.c:124-138 | a delayed message is untouched until a tick reaches its due time, and ready from that tick on |
| TopicModel.RipenedAll | base_queue/topic.c:124-138 | once nothing left is due the messages made ready are exactly those due |
| TopicModel.PublishedDelayCountsTwice | base_queue/topic.c:31-42 | a message published with delay d is ready exactly from its creation plus 2d on |
| Topics.Topic.AddMessage | base_queue/topic.c:31-42 | the message enters the ready or the delay heap with its due time pushed back |
| Topics.Topic.Publish | base_queue/message.c:7-38 | building and adding a fresh message is the add step of the model |
| Topics.Topic.GetReadyMessage | base_queue/topic.c:43-55 | hands out a ready message of least priority value and moves it, or answers null when there is none |
| Topics.Topic.Take | data/heap.c:104-122 | taking slot k out of any of the four heaps removes exactly that message from the map of live messages |
| Topics.Topic.Put | data/heap.c:77-101 | putting a message in any of the four heaps enters it there, in that heap, and changes no other |
| Topics.Topic.SleepMessage | base_queue/topic.c:57-72 | moves exactly the message with the id from using to sleeping, or answers -1 and changes nothing |
| Topics.Topic.ReuseMessage | base_queue/topic.c:73-88 | puts exactly the message with the id back in the queues, or answers -1 |
| Topics.Topic.WakeUpMessage | base_queue/topic.c:106-122 | puts exactly the sleeping message with the id back in the queues, or answers -1 |
| Topics.Topic.DelMessage | base_queue/topic.c:89-104 | answers 1 and the message with the id is gone and no other, when it was in use or asleep; otherwise answers -1 and nothing has changed |
| Topics.Topic.EarliestDelayed | base_queue/topic.c:127-135 | the root of the delay heap is due no later than any delayed message: what the early break relies on |
| Topics.Topic.TickTopic | base_queue/topic.c:124-138 | terminates; exactly the messages due become ready, whatever is left is later |
| Text.Strnstr | util/util.c:131-145 | the sliding window finds the first occurrence within the length, or none |
| Numbers.AtollReadsDecimal | parser/net_message.c:273-288 | reading a printed number gives the number back |
| Numbers.AtollMeaning | parser/net_message.c:273-288 | reading any text: white space, one sign, digits, whatever follows; saturated to 64 bits |
| Numbers.AtoiMeaning | parser/net_message.c:273-288 | and wrapped to 32 bits |
| NetMessages.SetParamMeaning | parser/net_message.c:236-342 | for each of the 21 names: the field named reads back the value, every other name reads as before, a refused parameter string clears its own field, an unknown name changes nothing |
| NetMessages.FieldsByName | parser/net_message.c:236-342 | the 21 names read all there is |
| ExtraParams.FormatMeaning | parser/net_message.c:458-514 | the groups the check walks exist exactly for renderings of one or more clean groups |
| ExtraParams.GroupsSound | parser/net_message.c:471-511 | what is accepted renders back to itself |
| ExtraParams.GroupsComplete | parser/net_message.c:471-511 | every rendering of clean groups is read as those groups |
| ExtraParams.IsExtraParamFormatRight | parser/net_message.c:458-514 | terminates and accepts exactly the blank strings and the renderings of one or more clean groups |
| ExtraParams.GetIsLookup | parser/net_message.c:135-160 | where a name occurs only as a whole key, reading it is looking it up in the list of pairs |
| ExtraParams.SetIsPut | parser/net_message.c:161-227 | and setting it replaces the first pair or appends one |
| ExtraParams.SetThenGet | parser/net_message.c:135-227 | setting then reading gives the value, other names read as before, and the string stays well formed |
| ExtraParams.SetThenGetExactly | parser/net_message.c:135-227 | on any accepted, blank or missing string, setting then reading works exactly when the value has no closing bracket and the name first occurs, in the string with the name behind it, at the end or before an opening bracket |
| ParamEffects.WellFormedFlat | parser/net_message.c:458-514 | in an accepted string every opening bracket is closed before another is opened |
| ParamEffects.ReadAround | parser/net_message.c:135-160 | what a name reads in a text around one bracketed value |
| ParamEffects.OthersChange | parser/net_message.c:135-227 | exactly when setting one parameter changes what another name reads, where the value is overwritten and where a group is added |
| ExtraParams.NameEndsAnotherKey | parser/net_message.c:175-204 | wherever the first occurrence of a name ends another group's key, setting the name replaces the value of that group and nothing else |
| ExtraParams.NameOccursInValue | parser/net_message.c:140-158 | a name inside a value hides the group added for it |
| ExtraParams.FindParamValueByString | parser/net_message.c:135-160 | the scanning loop reads the value the specification says, or none |
| ExtraParams.SetParamByValue | parser/net_message.c:161-227 | the buffer built is the specified replacement or extension |
| JcqGrammar.WholeRead | parser/jcq.c:8-218 | a flag, accepted lines and a body of the length they say between its marks are read as those fields, that body and the bytes behind it |
| JcqGrammar.FinishedExactly | parser/jcq.c:8-218 | a message is read to its end exactly when the bytes have that form |
| JcqGrammar.RefusedExactly | parser/jcq.c:8-218 | and refused exactly when a line sets no field, the length is negative, or what is behind the body does not begin with the closing mark |
| JcqChunks.CutOnce | parser/jcq.c:8-218 | after a good cut the first call leaves a state from which the rest is read as in one call |
| JcqChunks.ChunkingIndependence | parser/jcq.c:8-218 | any number of good cuts gives the same fields, body and leftover bytes |
| JcqChunks.CutsMatter | parser/jcq.c:8-218 | for any number of pieces: the same message and leftover bytes exactly when no piece ends right after the mark of a non-empty body or strictly inside the closing mark |
| JcqChunks.MisreadBody | parser/jcq.c:144-183 | when a stream cut after the mark, once or again and again, is not refused, the body read is a different one |
| JcqPrint.PrintedText | parser/net_message.h:105-115 | the printed message byte for byte |
| JcqPrint.RoundTrip | parser/jcq.c:219-260 | parsing what was printed finishes with every field and body byte, and leaves exactly what follows |
| JcqPrint.PiecewiseRoundTrip | parser/jcq.c:219-260 | and so in pieces, exactly when no cut is one of the two bad kinds |
| JcqPrint.HeaderParse | parser/net_message.h:105-115 | the printed header lines set exactly the fields printed |
| JcqParser.NetMessage.SetNetMessageParam | parser/net_message.c:236-342 | the fields and the answer are those of the function whose meaning SetParamMeaning gives for every name |
| JcqParser.NetMessage.GetParamNameAndData | parser/jcq.c:261-288 | splits off a complete header line, or asks for more |
| JcqParser.NetMessage.ParserJCQMessage | parser/jcq.c:8-218 | one call on a piece is the step function on the carried bytes and the piece, with the same answer |
| JcqParser.NetMessage.ReparserJCQMessage | parser/jcq.c:219-260 | the send buffer, replaced by a longer one when the body does not fit, holds what reads back as the same fields and body |
| Lists.BridgedRing | data/list.c:195-200 | bridging over a node leaves a ring without it |
| Lists.FindNode | data/list.c:86-121 | the first match in either direction before the end node, or none |
| Lists.NextFromList | data/list.c:130-156 | the next match, its data and where the walk stands; the end of the ring answers NULL |
| Lists.VisitsMatches | data/list.c:130-156 | a walk visits every match, once, in order, exactly when no match is NULL |
| Lists.List.Insert | data/list.c:52-74 | the ring gains the datum at its end, with a new highest id |
| Lists.List.Remove | data/list.c:188-206 | leaves exactly the entries that do not match, in order, says how many went and gives each of them back |
| Lists.List.Pop | data/list.c:413-429 | takes the first datum off, or answers NULL when the count is zero; frees the header exactly when the count is positive and there is no node |
| Lists.List.FreeAll | data/list.c:253-273 | every node is given back once, the header last, and the answer counts the header |
| Lists.List.Next | data/list.c:130-156 | one turn of a walk: what it visits is this datum and what the rest of the walk visits |
| Lists.List.Walk | base_queue/topic_router.c:74-90 | the loop on nextFromList visits the matches up to the first NULL |
| Lists.MergeList | data/list.c:564-576 | appends the data of the second list up to a NULL |
| Octets.UnsignedLay | data/store.h:21-25 | integers laid out low-order byte first read back |
| Octets.SignedLay | data/store.h:21-25 | and signed ones |
| Stores.TilingIsUnique | data/store.c:178-228 | two rows of records with the same bytes are the same row |
| Stores.AppendKeepsTiling | data/store.c:186-194 | appending a record keeps the file a gap-free row of records |
| Stores.OverwriteKeepsTiling | data/store.c:195-208 | overwriting a payload in place keeps it so |
| Stores.FieldsOnDisk | data/store.c:211-228 | what is read at the offset of a record is its header and payload |
| Stores.StoreFile.Store | data/store.c:178-209 | appends one record or overwrites one in place, or answers -1 or -2 and changes nothing; every other record stays |
| Stores.StoreFile.Restore | data/store.c:211-228 | the last value stored at the offset, or the error code |
| Stores.StoreFile.StoreString | data/store.c:243-293 | appends or overwrites within the recorded room; a larger maximum writes the old length before the new text |
| Stores.StoreFile.RestoreString | data/store.c:295-305 | the string up to its zero within the recorded length |
| Stores.StoreFile.SetStart | data/store.c:318-328 | the start position is written in the preamble and no record changes |
| Stores.StoredString | data/store.c:243-305 | a string stored where it fits is read back |
| Stores.GrownString | data/store.c:267-277 | a string moved by a larger maximum is read back exactly when it would have fitted the old length |
| Stores.GrowthBreaksTiling | data/store.c:267-292 | after that branch the file is a row of records exactly when the bytes of the new text beyond the old length are records themselves |
| Stores.ShortGrowth | data/store.c:267-292 | which never happens when the maximum grew by sixteen bytes or fewer |
| Disks.StoreAt | data/store.c:178-209 | on the file seen as records by position, storing is the step of the model; storing what is there changes no byte |
| Disks.StoreTextAt | data/store.c:243-293 | and so is storing a string where its room is not outgrown |
| RingImage.SaveKeepsImages | data/list.c:490-528 | saving a node puts its record on disk and keeps every other node's record right while positions change |
| RingImage.RecordSaved | data/list.c:490-528 | saving the record of a node leaves the data saved so far alone |
| RingImage.NodeStored | data/list.c:490-528 | saving a node, whose datum writes to the file first, puts its record on disk and keeps those already right |
| RingImage.SavedRing | data/list.c:465-487 | after saving any mix of saved and unsaved nodes, each datum writing to the file in between, the records form the same ring with the same ids and the handles of the data; no record of others changed, and the file grew by no more than the new records need |
| RingImage.SecondSave | data/list.c:465-528 | a second save of an unchanged list keeps every position, appends nothing and rewrites only what the data rewrite |
| RingImage.DiskLinks | data/list.c:490-528 | the links, id and data handle read from disk are those of the ring |
| ListStores.StoreListNode | data/list.c:490-528 | on nodes and file, with a data handle that writes, saving one node is the step of the model; where nothing changed no byte changes |
| ListStores.StoreListNodes | data/list.c:465-487 | and saving the ring is the whole of it |
| ListStores.StoreList | data/list.c:434-446 | saving a list is the model's saving of its ring and record; where nothing changed since the last save no byte of the file changes |
| ListStores.RestoreListNodes | data/list.c:529-545 | reads every record of the ring once, in order, and keeps the header and the last node |
| ListStores.RestoreList | data/list.c:447-464 | the counts come back with a ring of at most two nodes |
| ListStores.StoreThenRestore | data/list.c:434-562 | whatever was saved before, whatever the data write and whatever the count says, saved and read back a list holds its last datum only: contents are right exactly when there was at most one node, and the count exactly when it was right and at most one |
| ListStores.TwoNodesLoseOne | data/list.c:529-545 | a list of two data comes back with one datum and a count of two |
| Kinds.TextLawful | data/store.c:243-305 | strings keep the laws of stored things: the record of a saved one is rewritten in place, others stay, it reads back, and again only its padding changes |
| Kinds.BlobLawful | data/store.c:178-228 | so do byte strings |
| Kinds.BothLawful | app_queue/request.c:274-283 | so do two things stored one after the other |
| Kinds.RecordLawful | app_queue/request.c:262-286 | so does a record that holds the positions of its parts and is read back for them before it is written |
| Listings.RingStored | data/list.c:434-446 | the record of a list holds its counts and where the ring on disk starts, and saving it changes nothing of others |
| Listings.ListStored | data/list.c:434-562 | a list with any of its nodes and things saved before is on disk after a save, and everything not its own is as it was |
| Listings.ListLawful | data/list.c:434-562 | whatever laws the things in a list keep, the list keeps; it reads back as its last thing |
| ListEdits.InsertPlaced | data/list.c:52-74 | after inserting something not saved yet, what is known of the records of a saved list still holds |
| ListEdits.RemovePlaced | data/list.c:188-206 | and after removing a node, |
| ListEdits.ReplacePlaced | app_queue/request.c:76-83 | and after changing something in it |
| RequestStore.MicroIsKind | app_queue/request.c:342-363 | saving a message as coded is saving a record of its two strings and its data |
| RequestStore.MicroStored | app_queue/request.c:342-382 | wherever its parts were, a saved message comes back with its fields and payload, a string that is too long comes back absent, and records of others are as they were |
| RequestStore.RequesterIsKind | app_queue/request.c:262-286 | saving a requester as coded is saving a record of its list of messages and its four strings |
| RequestStore.RequesterStored | app_queue/request.c:262-306 | saved for the first time or again, a requester comes back with id, host, port, protocol, version and the last of its messages |
| RequestStore.ServerStored | app_queue/request.c:307-341 | with any requesters, messages and strings saved before, a request server comes back with its last requester, which is current exactly when it was, and records of others are as they were |
| RequestStore.ServerStoredAgain | app_queue/request.c:307-328 | saved again unchanged it keeps every position, appends nothing and changes only padding behind strings |
| RequestStore.ServerSurvives | app_queue/request.c:262-389 | it survives exactly with at most one requester, at most one message each and strings within the declared sizes |
| RequestLayout.MagicSpells | data/store.h:10 | the first eight bytes of the file |
| RequestLayout.NodeOnDisk | data/list.h:17-23 | which bytes of a node hold its links, its id and its handle |
| RequestLayout.ListOnDisk | data/list.h:31-36 | and of a list its id, its header, its count and its highest id |
| RequestLayout.MicroOnDisk | app_queue/request.h:76-84 | which bytes of a saved message hold or lead to which field, strings cut at the declared sizes |
| RequestLayout.RequesterOnDisk | app_queue/request.h:54-64 | so for a saved requester |
| RequestLayout.ServerOnDisk | app_queue/request.h:34-40 | and for a saved server |
| RequestLayout.ServerIsBack | app_queue/request.c:287-382 | field by field what comes back of a server: its numbers, its last requester with its last message and the strings that are short enough, current exactly when it was |
| RequestLayout.LostByLength | app_queue/request.h:11-17 | what survives a save, in numbers of bytes |
| Restarts.ListFound | data/list.c:447-562 | a list that was read back lies at the header and the last node of the old one, and can be stored over them; so for whatever it holds that has this property |
| Restarts.RequesterFound | app_queue/request.c:287-306 | so for a requester |
| Restarts.ServerFound | app_queue/request.c:329-341 | a server that was read back is what was kept of it, and can be stored over the records it came from |
| Restarts.NoRecordThere | app_queue/request.c:307-328 | a position that was never set, where there is no record, makes the next save answer -2 |
| Restarts.KeptServerTwice | app_queue/request.c:307-341 | what is kept once is kept again |
| RequestRuns.StepKeeps | app_queue/request.c:76-258 | every edit, save, restart, and write of others keeps what is known about the records of the server and of what was saved last |
| RequestRuns.DropMeaning | app_queue/request.c:240-257 | exactly the requesters with the id go; whoever was current stays so, and when the current one goes nobody is |
| RequestEffects.DropRest | app_queue/request.c:240-257 | the nodes that stay keep their ids, and nothing else of the server or of what is saved changes |
| RequestEffects.SendMeaning | app_queue/request.c:103-140 | a send takes the first message out, with its id, and changes nothing else |
| RequestEffects.AddMeaning | app_queue/request.c:95-102 | a message is queued behind the others with the next id, and nothing else changes |
| RequestEffects.AddRequesterMeaning | app_queue/request.c:84-94 | a requester comes after the others, and is current when nobody was |
| RequestEffects.ChooseMeaning | app_queue/request.c:188-200 | the first requester with the id becomes current, or nothing changes |
| RequestEffects.FirstInFirstOut | app_queue/request.c:95-140 | over every run, for each requester at the end: what it was given since it came or was read back is what went out, in that order, followed by what is still queued |
| RequestRuns.RestartKeeps | app_queue/client.c:87 | started again, the server is what was kept when it was saved last |
| RequestRuns.SecondRestart | app_queue/client.c:87 | and after another save and start it is the same |
| RequestRuns.SendsAllowed | app_queue/request.c:103-140 | a requester can be asked to send as often as it has messages, or for ever, exactly when the count of its list is right |
| RequestRuns.SendsAfterRestart | app_queue/request.c:103-140 | after a restart, once at most unless the saved count is the number of messages that came back, none or one |
| RequestRuns.NewServer | app_queue/request.c:13-27 | a new server starts with it |
| RequestRuns.EverySave | app_queue/server.c:286-293 | so after every run, restarts included, a save restores to the last requester with its last message, to the server itself exactly when nothing can be lost, and a save right after it changes only padding |
| RequestBytes.MicroInIs | app_queue/request.c:342-363 | the handle for messages, on the bytes of the file, does what the values say |
| RequestBytes.MessagesHandled | app_queue/request.c:279 | so it may be passed to storeList |
| RequestBytes.StoreMessages | data/list.c:434-528 | storeList with that handle, on ring and bytes, is saving the list of messages on values |
| RequestBytes.StoreRequesterIn | app_queue/request.c:262-286 | storeRequester, on the list object and the bytes, is saving the requester on values |
| PushEffects.DispatchEffect | app_queue/subscribe.c:322-352 | every topic with subscribers and a waiting message loses its first, which is then in use and counts one for each subscription; every pusher gets one copy for each time it is listed, in topic order; nothing else changes |
| PushEffects.HandedOutCount | app_queue/subscribe.c:439-455 | in every state of a run the count of a message just handed out is the number of its subscriptions |
| PushEffects.NobodyPassedOver | app_queue/subscribe.c:322-352 | after n dispatches a topic with subscribers has handed out its first n messages, one without has kept them all |
| PushEffects.PushAllEffect | app_queue/push.c:92-161 | every pusher that is free and has something ready sends its first copy, and nothing else changes |
| PushEffects.AckEffect | app_queue/push.c:288-305 | an acknowledgement of a pushed message lowers its count by one, and at zero moves it from use to deleted; any other changes nothing |
| PushModel.EnqueueKeeps | app_queue/push.c:83-91 | queueing a copy and raising the count keeps the invariant |
| PushModel.PushKeeps | app_queue/push.c:92-147 | pushing keeps it |
| PushModel.AckKeeps | app_queue/push.c:288-305 | any acknowledgement keeps the invariant, and an honest one keeps every client within what it was sent |
| PushModel.StepKeeps | app_queue/push.c:83-161 | so does every command; a message is deleted at the moment its count reaches zero |
| PushModel.CountedOwed | app_queue/push.c:83-305 | a message whose count is positive is owed to somebody, and so is one whose count is zero when some client acknowledged too much |
| PushModel.OwedOverdone | app_queue/push.c:83-305 | a message that is owed although its count is down was acknowledged too often by somebody |
| PushModel.AnyRun | app_queue/push.c:83-305 | over every run, honest or not: count is copies less acknowledgements, deleted exactly when acknowledgements reach copies, in use only while somebody is owed it, pushed and ready lists are the history in order |
| PushModel.EveryRun | app_queue/push.c:83-305 | over every honest run: deleted exactly when the last copy is acknowledged, in use exactly while somebody is owed it, no ready copy of a deleted message |
| PushModel.TooSoon | app_queue/push.c:288-305 | over every run: the acknowledgement that deletes leaves somebody owed exactly when some client acknowledged more copies than it was sent |
| PushModel.OneAckTooMany | app_queue/push.c:288-305 | after honest clients one acknowledgement deletes a message somebody is owed exactly when its count is one and the client already acknowledged all it was sent |
| PushModel.AckedTwice | app_queue/push.c:288-305 | nine commands from the start: a client that acknowledges twice deletes a message another pusher still has ready |
| Pushes.PushServer.PushMessageToSubscribeList | app_queue/subscribe.c:439-455 | one copy for every listed subscriber, in order, and the count raised by each |
| Pushes.PushServer.ProcessSubscribeTopic | app_queue/subscribe.c:322-352 | every topic with subscribers and a ready message hands one out to all of them; a topic nobody is listed under keeps its messages |
| Pushes.PushServer.PushToTarget | app_queue/push.c:92-147 | moves the first ready copy to the pushed list unless something is being sent |
| Pushes.PushServer.ProcessPush | app_queue/push.c:150-161 | every pusher is given one turn |
| Pushes.PushServer.PushMessageReceived | app_queue/push.c:288-305 | refuses a blank topic name; otherwise lowers the count of a pushed message and deletes it at zero, with success only for the acknowledgement that deletes |
| SubscribeModel.SubscribeMeaning | app_queue/subscribe.c:171-236 | whoever subscribes is listed once under each live topic that matches, after those before, also when the keyword is known already |
| SubscribeModel.AddMeaning | app_queue/subscribe.c:376-402 | a new topic comes last with the matching subscribers under it, once or, when requested, twice; a known or blank name changes nothing |
| SubscribeModel.RemoveMeaning | app_queue/subscribe.c:416-437 | a removed topic goes with everybody under it, a cleaned one comes back last, and no other list changes |
| SubscribeModel.ListedAddAll | app_queue/subscribe.c:299-318 | a subscriber is added to the lists of exactly the topics given |
| SubscribeModel.ListedUpdate | app_queue/subscribe.c:376-402 | a new topic lists exactly the matching subscribers, in order |
| SubscribeModel.StepKeeps | app_queue/subscribe.c:171-437 | every command keeps the exact contents of the index |
| SubscribeModel.EveryRun | app_queue/subscribe.c:171-437 | after every run the list of each live topic, in order and with repetitions, and the set of its members; nobody under another name |
| SubscribeModel.IndexIsMatching | app_queue/subscribe.c:171-437 | where both places ask the same question the index is the match relation, whichever was created first |
| SubscribeModel.OrderMatters | base_queue/topic_router.c:59-90 | who came first does not matter exactly when the two questions have the same answer |
| SubscribeModel.CaseDecides | app_queue/subscribe.c:403-414 | with the comparisons as coded, a keyword in another case is listed or not depending on who came first |
| SubscribeModel.RequestListsTwice | base_queue/router.c:249-270 | the add command lists every matching subscriber twice |
| Subscribes.SubscribeServer.AddSubscribeTopic | app_queue/subscribe.c:276-298 | adds the subscriber to the topic's entry, or to a new entry |
| Subscribes.SubscribeServer.GetTopicListByKeyword | base_queue/topic_router.c:74-90 | the live topics that match the keyword, in order |
| Subscribes.SubscribeServer.AddSubscribe | app_queue/subscribe.c:171-236 | a new subscriber with its target and its pusher, listed under the live topics that match; a blank keyword, host or port is refused and changes nothing |
| Subscribes.SubscribeServer.UpdateSubscribeAfterAddTopic | app_queue/subscribe.c:376-402 | adds every subscriber whose keyword matches the name |
| Subscribes.SubscribeServer.UpdateSubscribeAfterRemoveTopic | app_queue/subscribe.c:416-437 | drops exactly the entries with the name, and says whether there were any |
| Subscribes.SubscribeServer.AddTopic | base_queue/topic_router.c:8-25 | a new name becomes live and is indexed, a known one is refused, a blank one leaves an entry without a name |
| Subscribes.SubscribeServer.RemoveTopic | base_queue/topic_router.c:26-39 | the name is no longer live or indexed, the answer counts what went, and entries without a name stay |
| Subscribes.AllReached | base_queue/topic_router.c:91-104 | a loop that ends at the first NULL reaches every topic exactly when none was added after one without a name |
| Subscribes.NeverReached | base_queue/topic_router.c:91-104 | and topics added after one are never reached |
| Subscribes.SubscribeServer.TickTopics | base_queue/topic_router.c:91-104 | ticks the topics before the first one without a name |
| Subscribes.SubscribeServer.CleanTopic | base_queue/topic_router.c:40-48 | removes the name and adds it again |
| Subscribes.SubscribeServer.RequestTopic | base_queue/router.c:249-270 | adds the topic and updates the index once more |
| Md5.F1IsF | secure/md5.c:166-167 | the optimised first selection is F of section 3.4 of RFC 1321 |
| Md5.F2IsG | secure/md5.c:168 | and the second is G |
| Md5.SelectBits | secure/md5.c:166-167 | bit by bit, for any width |
| Md5.FourSteps | secure/md5.c:173-206 | four unrolled steps on rotating registers are four operations of the table |
| Md5.MD5Transform | secure/md5.c:181-263 | the unrolled transform is the four rounds of section 3.4 of RFC 1321 on every state and block |
| Md5.BitCount | secure/md5.c:77-82 | the two words count bits modulo 2^64; the carry is noticed because the low word went down |
| Md5.PadBlocks | secure/md5.c:127-151 | where the one or two last blocks of a padded message fall |
| Md5.PadIsAligned | secure/md5.c:127-155 | a padded message is a whole number of blocks |
| Md5.PadIsInjective | secure/md5.c:117-157 | below 2^61 bytes padding loses nothing |
| Md5.StartLaidOut | secure/md5.c:59-62 | the first registers are the sixteen bytes of section 3.3 of RFC 1321, low-order byte first |
| Md5.MD5Context.constructor | secure/md5.c:56-66 | nothing absorbed yet, and the registers laid out are those sixteen bytes |
| Md5.MD5Context.MD5Update | secure/md5.c:72-115 | the registers cover the whole blocks, the buffer holds exactly the tail, the bit count is the total modulo 2^64 |
| Md5.MD5Context.MD5Final | secure/md5.c:121-161 | the digest of everything absorbed, padded as in sections 3.1 and 3.2 of RFC 1321 |
| Md5.DigestOf | secure/md5.c:72-161 | however the input is split, the digest is that of the concatenation |
| Md5Bits.MixIsBits | secure/md5.c:163-169 | bit by bit the four functions choose, choose, add without carry, and invert |
| Md5Bits.PlusIs | secure/md5.c:172-173 | adding 32-bit vectors, carry by carry, is addition modulo 2^32 |
| Md5Bits.TurnIs | secure/md5.c:172-173 | shifting both ways and joining is the rotation |
| Md5Bits.AssignedIs | secure/md5.c:172-173 | an operation on vectors is the operation of section 3.4 on numbers, for every register, word and table entry |
| Md5Vectors.EmptyDigest | secure/md5.c:56-263 | the digest of the empty message, as in section A.5 of RFC 1321 |
| Md5Vectors.AbcDigest | secure/md5.c:56-263 | the digest of abc, as there |

## Left out

* Sockets, event loops, system activation, console, logging, configuration, clock and path lookup: input, output
  and foreign calls. Times are parameters.
* Command routers apart from the add command's double update, user checks, error codes and id counters: long
  dispatch with easy claims. Ids are taken to be fresh.
* `parserNetMessage` and `isJCQMessage`: they look for the start flag in every piece and overwrite carried bytes.
  The console command parser is not modelled either.
* Heap persistence: `storeHeapData` writes the capacity as a byte count, so only part of the positions is saved.
* `getHeapDataByIndex`, `getUsingMessages` and `removeByIdFromList`: the first two refuse slot 0, the last frees a
  node it leaves linked.
* Unsubscribing and back references from subscriber to topic: they compare by assignment and search with no
  predicate, which finds nothing.
* The regular expression engine: matching is a parameter of the index, and the code's own two comparisons are
  given beside it.
* `tickSubscribeServer` only calls the modelled operations on every topic.
* Calling the parser on a finished message, which drops the carried bytes.
* JcqParser.NetMessage.ReparserJCQMessage: the header must fit 511 bytes; beyond that the original copies from past
  its buffer.
* Stores.StoreFile.StoreString: a read followed by a write without a seek in between is taken to write where the read
  ended.
* `delStore` only changes the state field of a header.
* RequestStore.MicroStored: the data of a message keep their length once saved; nothing in the program changes it, and
  `store` would answer -2 where the message needs a position.
* RequestStore.RequesterStored: users and connections are positions only.
* RequestStore.ServerStored: saving the list of requesters is on values, with the file as a map from positions to records
  and its end; on the bytes there are ListStores.StoreList for any handle, and RequestBytes.StoreRequesterIn for one
  requester.
* RequestRuns.StepKeeps: a garbage position that is some other record of the server's size, or of another size, is not a
  restart the run allows; a list without messages whose count says there are some is not asked for one.
* ListStores.StoreThenRestore: the handle that restores a datum only reads.
* ParamEffects.OthersChange: values with brackets, which the format check would refuse afterwards.
* Pushes.PushServer.PushMessageReceived: messages are ids, so reading a deleted message through a copy that is still in
  a pushed list is not modelled, nor is a command of another client on a message in use.
* Pushes.PushServer.PublishMessage: where a message lands among the waiting ones is a parameter; the heap order that
  decides it is part of the topic.
* Subscribes.SubscribeServer.AddSubscribe: the default protocol and type, and the id sent back.
* Md5.MD5Context.MD5Final: the context afterwards is unspecified, because only the size of a pointer is cleared; on a
  machine with the high-order byte first the byte order is swapped before and after, which is not modelled.
* Wrap-around of priorities, due times and counts of copies.
