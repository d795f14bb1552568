/**
 The objects behind the large-payload route: the payload store, the one-shot
 cleanup, and the post that ties a fetch script to it.
 */
module ChannelPost {
  import opened Wrappers
  import opened JsChannel
  import opened ChannelSystem

  /** CHANNEL_DATA_STORE */
  class ChannelDataStore {
    var data: map<DataId, Message>

    method StoreTyped(id: DataId, message: Message)
      modifies this
      ensures data == old(data)[id := message]
    {
      data := data[id := message];
    }

    /** One-shot: a second fetch of the same id finds nothing. */
    method Fetch(id: DataId) returns (r: Option<Message>)
      modifies this
      ensures r == (if id in old(data) then Some(old(data)[id]) else None)
      ensures data == old(data) - {id}
    {
      if id in data {
        r := Some(data[id]);
        data := data - {id};
      } else {
        r := None;
      }
    }

    method RemoveData(id: DataId)
      modifies this
      ensures data == old(data) - {id}
    {
      data := data - {id};
    }
  }

  /** `AbandonedPostCleanup`: the callback removes one payload; `runs` counts its executions. */
  class AbandonedPostCleanup {
    const store: ChannelDataStore
    const id: DataId
    var callback: bool
    var runs: nat

    constructor (s: ChannelDataStore, d: DataId)
      ensures store == s && id == d && callback && runs == 0
    {
      store, id, callback, runs := s, d, true, 0;
    }

    method Run()
      modifies this, store
      ensures !callback && runs == old(runs) + (if old(callback) then 1 else 0)
      ensures store.data == if old(callback) then old(store.data) - {id} else old(store.data)
    {
      if callback {
        callback := false;
        runs := runs + 1;
        store.RemoveData(id);
      }
    }

    method Disarm()
      modifies this
      ensures !callback && runs == old(runs)
    {
      callback := false;
    }

    method Drop()
      modifies this, store
      ensures !callback && runs == old(runs) + (if old(callback) then 1 else 0)
      ensures store.data == if old(callback) then old(store.data) - {id} else old(store.data)
    {
      Run();
    }
  }

  /** The posted closure: the cleanup runs exactly once if the owner is gone, and not at all otherwise. */
  method RunPostedFetch(store: ChannelDataStore, id: DataId, ownerAlive: bool, evalOk: bool)
    returns (cleanups: nat)
    modifies store
    ensures cleanups == if ownerAlive then 0 else 1
    ensures store.data == if ownerAlive then old(store.data) else old(store.data) - {id}
    ensures forall st: Store, i | st.data == old(store.data) ::
              store.data == NextStore(ownerAlive, st, i, QueuedFetch(id), RunScript(evalOk)).data
  {
    var cleanup := new AbandonedPostCleanup(store, id);
    if !ownerAlive {
      cleanup.Run();
      cleanup.Drop();
      return cleanup.runs;
    }
    // the script is evaluated; an error is only logged
    cleanup.Disarm();
    cleanup.Drop();
    cleanups := cleanup.runs;
  }

  datatype PostResult = Accepted | WebViewClosed | RunLoopNotInitialized

  /**
   `post_webview_op_or_else` for a fetch script. `sent` is what `send` returns when
   the caller is on another thread; then the closure is still to run.
   */
  method PostFetchScript(store: ChannelDataStore, id: DataId, ownerAlive: bool, sameThread: bool, sent: bool, evalOk: bool)
    returns (r: PostResult, cleanups: nat)
    modifies store
    ensures r == (if !ownerAlive then WebViewClosed
                  else if sameThread || sent then Accepted else RunLoopNotInitialized)
    ensures cleanups == if ownerAlive then 0 else 1
    ensures store.data == if ownerAlive then old(store.data) else old(store.data) - {id}
    ensures forall st: Store, i | st.data == old(store.data) ::
              store.data == NextStore(ownerAlive, st, i, Stored(id), PostFetch).data
  {
    cleanups := 0;
    if !ownerAlive {
      store.RemoveData(id);
      return WebViewClosed, 1;
    }
    if sameThread {
      cleanups := RunPostedFetch(store, id, ownerAlive, evalOk);
    } else if !sent {
      return RunLoopNotInitialized, 0;
    }
    r := Accepted;
  }
}
