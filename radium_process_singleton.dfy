/**
 * `RadiumProcessSingleton`: the process-wide wrapper around the
 * `ProcessSingleton` lock on the user-data directory. What the underlying
 * `ProcessSingleton` answers is an input; the calls passed on to it are
 * recorded.
 */
module RadiumProcessSingleton {
  import opened Wrappers

  /** `ProcessSingleton::NotifyResult`. */
  datatype NotifyResult = ProcessNone | ProcessNotified | ProfileInUse | LockError

  datatype Event =
    | NotifyOrCreate           // `process_singleton_.NotifyOtherProcessOrCreate()`
    | WatchingStarted
    | CleanedUp                // `process_singleton_.Cleanup()`
    | StartupUnlocked          // `startup_lock_.Unlock()`

  class RadiumProcessSingleton {
    const userDataDir: string
    /** `is_singleton_instance_`. */
    var isSingletonInstance: bool
    /** `notification_callback_`, named by a number. */
    var notificationCallback: Option<nat>
    var events: seq<Event>

    constructor (userDataDir: string)
      ensures this.userDataDir == userDataDir && !isSingletonInstance && notificationCallback == None && events == []
    {
      this.userDataDir := userDataDir;
      isSingletonInstance := false;
      notificationCallback := None;
      events := [];
    }

    /** `NotifyOtherProcessOrCreate`: only once per process; the process becomes the singleton iff no other process answered. */
    method NotifyOtherProcessOrCreate(answer: NotifyResult) returns (r: NotifyResult)
      requires !isSingletonInstance
      modifies this
      ensures r == answer
      ensures isSingletonInstance <==> answer == ProcessNone
      ensures events == old(events) + [NotifyOrCreate] && notificationCallback == old(notificationCallback)
    {
      events := events + [NotifyOrCreate];
      r := answer;
      if r == ProcessNone {
        isSingletonInstance := true;
      }
    }

    /** `StartWatching`: passed on. */
    method StartWatching()
      modifies this
      ensures events == old(events) + [WatchingStarted]
      ensures isSingletonInstance == old(isSingletonInstance) && notificationCallback == old(notificationCallback)
    {
      events := events + [WatchingStarted];
    }

    /** `Cleanup`: the lock is cleaned up only by the process that holds it. */
    method Cleanup()
      modifies this
      ensures events == old(events) + (if isSingletonInstance then [CleanedUp] else [])
      ensures isSingletonInstance == old(isSingletonInstance) && notificationCallback == old(notificationCallback)
    {
      if isSingletonInstance {
        events := events + [CleanedUp];
      }
    }

    /** `Unlock`: the callback is stored before the startup lock opens. */
    method Unlock(callback: nat)
      modifies this
      ensures notificationCallback == Some(callback)
      ensures events == old(events) + [StartupUnlocked] && isSingletonInstance == old(isSingletonInstance)
    {
      notificationCallback := Some(callback);
      events := events + [StartupUnlocked];
    }

    /**
     * `NotificationCallback`: a message from another process is handed to the
     * stored callback, whose answer (`answer`) is returned; a callback must be
     * stored.
     */
    method NotificationCallback(answer: bool) returns (r: bool, used: nat)
      requires notificationCallback.Some?
      ensures r == answer && Some(used) == notificationCallback
    {
      r := answer;
      used := notificationCallback.value;
    }
  }

  /** `g_radium_process_singleton_`. */
  class Globals {
    var instance: RadiumProcessSingleton?

    constructor ()
      ensures instance == null
    {
      instance := null;
    }

    /** `CreateInstance`: only when none exists, and only for a non-empty directory. */
    method CreateInstance(userDataDir: string)
      requires instance == null && userDataDir != ""
      modifies this
      ensures instance != null && fresh(instance)
      ensures instance.userDataDir == userDataDir && !instance.isSingletonInstance && instance.events == []
    {
      instance := new RadiumProcessSingleton(userDataDir);
    }

    /** `DeleteInstance`: deletes the instance if there is one. */
    method DeleteInstance()
      modifies this
      ensures instance == null
    {
      if instance != null {
        instance := null;
      }
    }

    /** `GetInstance`: the instance must exist. */
    method GetInstance() returns (r: RadiumProcessSingleton)
      requires instance != null
      ensures r == instance
    {
      r := instance;
    }

    /** `IsSingletonInstance`: false without an instance; with one, whatever the instance says. */
    function IsSingletonInstance(): (r: bool)
      reads this, instance
      ensures r ==> instance != null
      ensures instance != null && instance.isSingletonInstance ==> r
    {
      instance != null && instance.isSingletonInstance
    }
  }

  /** A process that created the lock holds it after notifying; one that reached another process does not. */
  method BecomesSingletonOnlyWhenAlone(dir: string, answer: NotifyResult) returns (singleton: bool)
    requires dir != ""
    ensures singleton <==> answer == ProcessNone
  {
    var g := new Globals();
    g.CreateInstance(dir);
    var s := g.GetInstance();
    var r := s.NotifyOtherProcessOrCreate(answer);
    singleton := g.IsSingletonInstance();
  }

  /** Deleting twice is deleting once, and afterwards no process is the singleton. */
  method DeleteTwice(dir: string, answer: NotifyResult) returns (singleton: bool)
    requires dir != ""
    ensures !singleton
  {
    var g := new Globals();
    g.CreateInstance(dir);
    var s := g.GetInstance();
    var r := s.NotifyOtherProcessOrCreate(answer);
    g.DeleteInstance();
    g.DeleteInstance();
    singleton := g.IsSingletonInstance();
  }
}
