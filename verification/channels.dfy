/**
 * Android notification channels, as a table keyed by channel id. In this model a
 * write replaces the entry under its id, so the table is a map and provisioning can
 * never create a duplicate. (A device keeps some fields of an existing channel; that
 * refinement is not modelled.)
 */
module Channels {
  import opened Wrappers
  import opened Platform

  /** The notifications library's Android importance levels. */
  datatype Importance = Unknown | Unspecified | Silent | Min | Low | DefaultImportance | High | Max

  /** The fields the provisioning code sets on a channel. */
  datatype ChannelDescriptor = ChannelDescriptor(
    name: string,
    importance: Importance,
    vibrationPattern: seq<nat>,
    lightColor: string,
    sound: bool,
    enableLights: bool,
    enableVibration: bool,
    showBadge: bool,
    description: Option<string>)

  /** One `setNotificationChannelAsync(id, descriptor)` call. */
  datatype ChannelWrite = ChannelWrite(id: string, descriptor: ChannelDescriptor)

  type ChannelTable = map<string, ChannelDescriptor>

  const DefaultChannelId := "default"
  const MessagesChannelId := "messages"
  const VibrationPattern: seq<nat> := [0, 250, 250, 250]
  const LightColor := "#2563EB"

  const DefaultChannel := ChannelDescriptor(
    "default", Max, VibrationPattern, LightColor, true, true, true, true, None)

  const MessagesChannel := ChannelDescriptor(
    "消息通知", High, VibrationPattern, LightColor, true, true, true, true,
    Some("FufflyChat 消息提醒"))

  /** The channel writes registration issues, in order: none off Android. */
  function ChannelWrites(os: Os): seq<ChannelWrite> {
    if os == Android then
      [ChannelWrite(DefaultChannelId, DefaultChannel), ChannelWrite(MessagesChannelId, MessagesChannel)]
    else
      []
  }

  /** The modelled effect of one write: the entry under `id` is replaced or added, nothing else changes. */
  function SetChannel(table: ChannelTable, write: ChannelWrite): (r: ChannelTable)
    ensures r.Keys == table.Keys + {write.id}
    ensures r[write.id] == write.descriptor
    ensures forall id :: id in table && id != write.id ==> r[id] == table[id]
  {
    table[write.id := write.descriptor]
  }

  /** Rewriting an existing id, with whatever fields, updates it in place: the table does not grow. */
  lemma RewriteKeepsSize(table: ChannelTable, write: ChannelWrite)
    requires write.id in table
    ensures |SetChannel(table, write)| == |table|
    ensures SetChannel(table, write)[write.id] == write.descriptor
  {
  }

  /** The table after a sequence of writes, applied in order. */
  function ApplyWrites(table: ChannelTable, writes: seq<ChannelWrite>): ChannelTable
    decreases |writes|
  {
    if |writes| == 0 then table else ApplyWrites(SetChannel(table, writes[0]), writes[1..])
  }

  /** Two writes in a row are the second applied on top of the first. */
  lemma ApplyWritesPair(table: ChannelTable, first: ChannelWrite, second: ChannelWrite)
    ensures ApplyWrites(table, [first, second]) == SetChannel(SetChannel(table, first), second)
  {
    var once := SetChannel(table, first);
    assert [first, second][1..] == [second];
    assert ApplyWrites(table, [first, second]) == ApplyWrites(once, [second]);
    assert [second][1..] == [];
    assert ApplyWrites(once, [second]) == ApplyWrites(SetChannel(once, second), []);
  }

  /** The channel table after the provisioning step of registration on `os`. */
  function Provision(os: Os, table: ChannelTable): (r: ChannelTable)
    ensures os != Android ==> r == table
    ensures os == Android ==> r.Keys == table.Keys + {DefaultChannelId, MessagesChannelId}
    ensures os == Android ==> r[DefaultChannelId] == DefaultChannel && r[MessagesChannelId] == MessagesChannel
    ensures os == Android ==> r[DefaultChannelId].importance == Max
    ensures os == Android ==> r[MessagesChannelId].importance == High
    ensures os == Android ==> r[MessagesChannelId].name == "消息通知"
    ensures os == Android ==>
      forall id :: id in {DefaultChannelId, MessagesChannelId} ==>
        r[id].vibrationPattern == [0, 250, 250, 250] && r[id].lightColor == "#2563EB"
    ensures forall id :: id in table && id !in {DefaultChannelId, MessagesChannelId} ==> r[id] == table[id]
  {
    if os == Android then
      ApplyWritesPair(table, ChannelWrites(os)[0], ChannelWrites(os)[1]);
      ApplyWrites(table, ChannelWrites(os))
    else
      ApplyWrites(table, ChannelWrites(os))
  }

  /** Re-running provisioning changes nothing. */
  lemma ProvisionIdempotent(os: Os, table: ChannelTable)
    ensures Provision(os, Provision(os, table)) == Provision(os, table)
  {
  }

  /** Provisioning a fresh Android table leaves exactly the two channels. */
  lemma ProvisionFreshTable()
    ensures Provision(Android, map[]).Keys == {DefaultChannelId, MessagesChannelId}
    ensures |Provision(Android, map[])| == 2
  {
  }

  /** Overwrite, never append: the table grows only by the ids it did not yet hold. */
  lemma ProvisionSize(table: ChannelTable)
    ensures |Provision(Android, table)| == |table| + |{DefaultChannelId, MessagesChannelId} - table.Keys|
  {
  }
}
