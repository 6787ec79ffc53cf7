/**
 * `scheduleNotification(title, body)`: the request handed to the platform for an
 * immediate local message notification.
 */
module Scheduling {
  import opened Wrappers
  import opened Platform
  import Channels
  import opened Registration
  import opened Protocol

  /** The notifications library's Android notification priorities. */
  datatype NotificationPriority = Min | Low | DefaultPriority | High | Max

  /** The content block of a notification request. */
  datatype NotificationContent = NotificationContent(
    title: string,
    body: string,
    sound: bool,
    priority: NotificationPriority,
    channelId: string,
    categoryIdentifier: string,
    badge: nat)

  /** A deferred firing condition; this code never builds one. */
  datatype Trigger = AfterSeconds(seconds: nat)

  /** A request to `scheduleNotificationAsync`; no trigger means "show now". */
  datatype NotificationRequest = NotificationRequest(content: NotificationContent, trigger: Option<Trigger>)

  /** The request `scheduleNotification` builds, lines 138-151. */
  function ScheduleNotification(title: string, body: string): (request: NotificationRequest)
    ensures request.content.title == title && request.content.body == body
    ensures request.trigger.None?
    ensures request.content.channelId == Channels.MessagesChannelId && request.content.categoryIdentifier == "message"
    ensures request.content.channelId in Channels.Provision(Android, map[])
    ensures request.content.priority == High && request.content.sound && request.content.badge == 1
  {
    NotificationRequest(
      NotificationContent(title, body, true, High, Channels.MessagesChannelId, "message", 1),
      None)
  }

  /** Requests differ exactly when their title or body differ: nothing else depends on the input. */
  lemma ScheduleNotificationInjective(title: string, body: string, title': string, body': string)
    ensures ScheduleNotification(title, body) == ScheduleNotification(title', body')
        <==> title == title' && body == body'
  {
  }

  /**
   * After registration has run on Android, the channel the request names is in the
   * modelled channel table, and that channel is the high-importance messages channel,
   * whatever table the platform started from and whatever registration answered.
   */
  lemma ScheduledChannelIsProvisioned(env: Registration.Environment, table: Channels.ChannelTable, title: string, body: string)
    requires env.os == Android
    ensures ScheduleNotification(title, body).content.channelId in ApplyCalls(table, Register(env).trace)
    ensures ApplyCalls(table, Register(env).trace)[ScheduleNotification(title, body).content.channelId]
         == Channels.MessagesChannel
    ensures ApplyCalls(table, Register(env).trace)[ScheduleNotification(title, body).content.channelId].importance
         == Channels.High
  {
    RegisterProvisions(env, table);
  }
}
