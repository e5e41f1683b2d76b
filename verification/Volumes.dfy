/**
 Creating a workspace's volumes: two volumes and two claims, each creation undone by deletes when a later one fails.
 */
module Volumes {
  import opened Options

  /** Names of the persistent volumes and of their claims. */
  datatype Store = Store(pvs: set<string>, pvcs: set<string>)

  datatype Creates = Creates(dataPv: Reply, configPv: Reply, dataPvc: Reply, configPvc: Reply)

  /** Whether each rollback delete takes effect; errors of deletes are ignored. */
  datatype Deletes = Deletes(dataPv: bool, configPv: bool, dataPvc: bool)

  function DataName(id: string): string { "workspace-data-" + id }

  function ConfigName(id: string): string { "workspace-config-" + id }

  lemma NamesDiffer(id: string)
    ensures DataName(id) != ConfigName(id)
  {
    assert DataName(id)[10] == 'd' && ConfigName(id)[10] == 'c';
  }

  predicate VolumeExists(s: Store, id: string) {
    DataName(id) in s.pvs && DataName(id) in s.pvcs && ConfigName(id) in s.pvs && ConfigName(id) in s.pvcs
  }

  predicate Fresh(s: Store, id: string) {
    DataName(id) !in s.pvs + s.pvcs && ConfigName(id) !in s.pvs + s.pvcs
  }

  /** The resource store behind the Kubernetes client. */
  class Cluster {
    var pvs: set<string>
    var pvcs: set<string>

    constructor (s: Store)
      ensures Now() == s
    {
      pvs, pvcs := s.pvs, s.pvcs;
    }

    function Now(): Store
      reads this
    {
      Store(pvs, pvcs)
    }

    method CreatePv(name: string, reply: Reply) returns (ok: bool)
      modifies this`pvs
      ensures ok <==> name !in old(pvs) && reply == Done
      ensures pvs == if reply == Refused then old(pvs) else old(pvs) + {name}
    {
      if name in pvs || reply == Refused {
        return false;
      }
      pvs := pvs + {name};
      return reply == Done;
    }

    method CreatePvc(name: string, reply: Reply) returns (ok: bool)
      modifies this`pvcs
      ensures ok <==> name !in old(pvcs) && reply == Done
      ensures pvcs == if reply == Refused then old(pvcs) else old(pvcs) + {name}
    {
      if name in pvcs || reply == Refused {
        return false;
      }
      pvcs := pvcs + {name};
      return reply == Done;
    }

    method DeletePv(name: string, done: bool)
      modifies this`pvs
      ensures pvs == if done then old(pvs) - {name} else old(pvs)
    {
      if done {
        pvs := pvs - {name};
      }
    }

    method DeletePvc(name: string, done: bool)
      modifies this`pvcs
      ensures pvcs == if done then old(pvcs) - {name} else old(pvcs)
    {
      if done {
        pvcs := pvcs - {name};
      }
    }

    method VolumeExistsHere(id: string) returns (found: bool)
      ensures found == VolumeExists(Now(), id)
    {
      if DataName(id) !in pvs {
        return false;
      }
      if DataName(id) !in pvcs {
        return false;
      }
      if ConfigName(id) !in pvs {
        return false;
      }
      return ConfigName(id) in pvcs;
    }

    /**
     Success exactly when the id is fresh and every create is done, and then all four resources exist; nothing that
     existed before the call is ever lost. For a fresh id, the volume exists afterwards exactly when the call
     succeeded, except that the last answer was lost and no delete took effect; and a failed call whose deletes take
     effect leaves the store as it was exactly when the failing create was refused rather than lost.
     */
    method CreateVolume(id: string, creates: Creates, deletes: Deletes) returns (ok: bool)
      modifies this
      ensures ok <==> Fresh(old(Now()), id) && creates == Creates(Done, Done, Done, Done)
      ensures ok ==> pvs == old(pvs) + {DataName(id), ConfigName(id)}
      ensures ok ==> pvcs == old(pvcs) + {DataName(id), ConfigName(id)}
      ensures Fresh(old(Now()), id) ==>
                ((VolumeExists(Now(), id) <==> ok) <==>
                 !(creates == Creates(Done, Done, Done, Lost) && deletes == Deletes(false, false, false)))
      ensures Fresh(old(Now()), id) && !ok && deletes == Deletes(true, true, true) ==>
              (Now() == old(Now()) <==> FailingReply(creates) == Refused)
      ensures old(pvs) <= pvs <= old(pvs) + {DataName(id), ConfigName(id)}
      ensures old(pvcs) <= pvcs <= old(pvcs) + {DataName(id), ConfigName(id)}
    {
      NamesDiffer(id);
      var data, config := DataName(id), ConfigName(id);
      ok := CreatePv(data, creates.dataPv);
      if !ok {
        return;
      }
      ok := CreatePv(config, creates.configPv);
      if !ok {
        DeletePv(data, deletes.dataPv);
        return;
      }
      ok := CreatePvc(data, creates.dataPvc);
      if !ok {
        DeletePv(data, deletes.dataPv);
        DeletePv(config, deletes.configPv);
        return;
      }
      ok := CreatePvc(config, creates.configPvc);
      if !ok {
        DeletePv(data, deletes.dataPv);
        DeletePv(config, deletes.configPv);
        DeletePvc(data, deletes.dataPvc);
      }
    }
  }

  /** The first reply that is not `Done`, if any. */
  function FailingReply(c: Creates): Reply {
    if c.dataPv != Done then c.dataPv
    else if c.configPv != Done then c.configPv
    else if c.dataPvc != Done then c.dataPvc
    else c.configPvc
  }
}
