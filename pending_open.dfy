/**
  The shared queue of document paths found before the webview is ready, the
  start-up hook that fills it and the page-load handler that drains it.
  The mutex around the queue is modelled by a flag saying whether the lock was
  obtained; when it is not, the guarded block does not run.
*/
module PendingOpenQueue {
  import opened Wrappers
  import opened Scanner
  import opened Delivery

  /** The managed state: the list of paths waiting for the UI, oldest first. */
  class PendingOpen {
    var items: seq<string>

    /** Created empty when the application starts. */
    constructor ()
      ensures items == []
    {
      items := [];
    }

    /** Append a path at the tail, under the lock. */
    method Enqueue(path: string, lockObtained: bool)
      modifies this
      ensures items == if lockObtained then old(items) + [path] else old(items)
    {
      if lockObtained {
        items := items + [path];
      }
    }

    /**
      The page-load handler: under the lock, remove every queued path, oldest
      first, and for each one whose encoding succeeds produce the script handed
      to the webview. The outcome of evaluating a script is discarded, so it
      neither stops nor alters the delivery of the remaining paths.
    */
    method DrainAndDeliver(lockObtained: bool, encode: string -> Option<string>) returns (scripts: seq<string>)
      modifies this
      ensures lockObtained ==> items == [] && scripts == DeliveryScripts(old(items), encode)
      ensures !lockObtained ==> items == old(items) && scripts == []
    {
      scripts := [];
      if lockObtained {
        while items != []
          invariant scripts + DeliveryScripts(items, encode) == DeliveryScripts(old(items), encode)
          decreases |items|
        {
          var path := items[0];
          ghost var before := scripts;
          assert DeliveryScripts(items, encode) == ScriptsFor(path, encode) + DeliveryScripts(items[1..], encode);
          items := items[1..];
          match encode(path) {
            case Some(encoded) =>
              scripts := scripts + [Script(encoded)];
            case None =>
          }
          assert scripts == before + ScriptsFor(path, encode);
        }
      }
    }
  }

  /**
    The start-up hook: scan the arguments and, when a document path is found
    and the lock is obtained, queue that path at the tail. Otherwise the queue
    is left as it was.
  */
  method Setup(queue: PendingOpen, args: seq<string>, lockObtained: bool)
    modifies queue
    ensures FindCfj(args).Some? && lockObtained ==> queue.items == old(queue.items) + [FindCfj(args).value]
    ensures FindCfj(args).None? || !lockObtained ==> queue.items == old(queue.items)
  {
    var found := FindCfj(args);
    if found.Some? {
      queue.Enqueue(found.value, lockObtained);
    }
  }

  /**
    A launch with a document argument: the first page load delivers exactly
    that path; a reload with nothing new queued delivers nothing; a path queued
    after that is delivered alone by the next page load.
  */
  method LaunchScenario(encode: string -> Option<string>)
    returns (firstLoad: seq<string>, reload: seq<string>, laterLoad: seq<string>)
    ensures encode("report.cfj").Some? ==>
      firstLoad == [Script(encode("report.cfj").value)] && Payload(firstLoad[0]) == encode("report.cfj")
    ensures encode("report.cfj").None? ==> firstLoad == []
    ensures reload == []
    ensures laterLoad == DeliveryScripts(["later.cfj"], encode)
  {
    var queue := new PendingOpen();
    var args := ["app.bin", "report.cfj"];
    assert FindCfj(args) == Some("report.cfj") by {
      IsCfjPathIff("app.bin");
      IsCfjPathIff("report.cfj");
    }
    Setup(queue, args, true);
    assert queue.items == ["report.cfj"];
    firstLoad := queue.DrainAndDeliver(true, encode);
    assert firstLoad == ScriptsFor("report.cfj", encode) by {
      assert ["report.cfj"][1..] == [];
    }
    if encode("report.cfj").Some? {
      PayloadOfScript(encode("report.cfj").value);
    }
    reload := queue.DrainAndDeliver(true, encode);
    assert reload == [];
    queue.Enqueue("later.cfj", true);
    assert queue.items == ["later.cfj"];
    laterLoad := queue.DrainAndDeliver(true, encode);
  }
}
