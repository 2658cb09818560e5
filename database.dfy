/** The `Deployment` row (backend/models/database.py): its fields as a
    class the service updates in place, and a value snapshot of them that
    the specification functions work on. */
module Database {
  import opened Wrappers

  /** The values the `status` column takes. */
  datatype Status = Pending | Creating | Running | Failed | Stopped | Deleted

  /** The text stored in the `status` column. */
  function StatusName(s: Status): string {
    match s
    case Pending => "pending"
    case Creating => "creating"
    case Running => "running"
    case Failed => "failed"
    case Stopped => "stopped"
    case Deleted => "deleted"
  }

  /** No two statuses are stored under the same name, so a query on the
      column's text (`filter_by(status='running')`) selects exactly the rows
      in that status: the six names differ in their first letter. */
  lemma StatusNamesDistinct(s: Status, t: Status)
    ensures StatusName(s) == StatusName(t) ==> s == t
  {
    if s != t {
      assert StatusName(s)[0] != StatusName(t)[0];
    }
  }

  /** The content of one row. Nullable columns are options; date-times are
      instants on an abstract integer clock. */
  datatype Record = Record(
    id: nat,
    name: string,
    kind: string,
    framework: string,
    githubUrl: string,
    cpu: int,
    memory: int,
    disk: int,
    proxmoxId: Option<int>,
    proxmoxNode: Option<string>,
    ipAddress: Option<string>,
    status: Status,
    errorMessage: Option<string>,
    createdAt: Option<int>,
    updatedAt: Option<int>,
    deployedAt: Option<int>,
    terraformOutput: Option<string>,
    deploymentLog: Option<string>)

  /** A `Deployment` row as the ORM object the service mutates. `kind` is
      the `type` column (vm or lxc). */
  class Deployment {
    const id: nat
    var name: string
    var kind: string
    var framework: string
    var githubUrl: string
    var cpu: int
    var memory: int
    var disk: int
    var proxmoxId: Option<int>
    var proxmoxNode: Option<string>
    var ipAddress: Option<string>
    var status: Status
    var errorMessage: Option<string>
    var createdAt: Option<int>
    var updatedAt: Option<int>
    var deployedAt: Option<int>
    var terraformOutput: Option<string>
    var deploymentLog: Option<string>

    function Snapshot(): Record
      reads this
    {
      Record(id, name, kind, framework, githubUrl, cpu, memory, disk,
             proxmoxId, proxmoxNode, ipAddress, status, errorMessage,
             createdAt, updatedAt, deployedAt, terraformOutput, deploymentLog)
    }

    /** A new row as the creation handler builds it: status `pending`,
        both timestamps defaulted to the current instant, and every
        Proxmox, log and error column empty. */
    constructor (id: nat, name: string, kind: string, framework: string, githubUrl: string,
                 cpu: int, memory: int, disk: int, now: int)
      ensures Snapshot() == Record(id, name, kind, framework, githubUrl, cpu, memory, disk,
                                   None, None, None, Pending, None,
                                   Some(now), Some(now), None, None, None)
    {
      this.id := id;
      this.name := name;
      this.kind := kind;
      this.framework := framework;
      this.githubUrl := githubUrl;
      this.cpu := cpu;
      this.memory := memory;
      this.disk := disk;
      proxmoxId := None;
      proxmoxNode := None;
      ipAddress := None;
      status := Pending;
      errorMessage := None;
      createdAt := Some(now);
      updatedAt := Some(now);
      deployedAt := None;
      terraformOutput := None;
      deploymentLog := None;
    }

    /** `status = 'creating'`. */
    method MarkCreating()
      modifies this
      ensures Snapshot() == old(Snapshot()).(status := Creating)
    {
      status := Creating;
    }

    /** `terraform_output = output`. */
    method RecordTerraformOutput(output: string)
      modifies this
      ensures Snapshot() == old(Snapshot()).(terraformOutput := Some(output))
    {
      terraformOutput := Some(output);
    }

    /** The Proxmox columns, from Terraform's outputs and the configured
        node. */
    method RecordVm(vmId: Option<int>, ip: Option<string>, node: Option<string>)
      modifies this
      ensures Snapshot() == old(Snapshot()).(proxmoxId := vmId, ipAddress := ip, proxmoxNode := node)
    {
      proxmoxId := vmId;
      ipAddress := ip;
      proxmoxNode := node;
    }

    /** The success of a deployment: its log, status `running` and the
        deployment instant. */
    method MarkRunning(log: string, now: int)
      modifies this
      ensures Snapshot() == old(Snapshot()).(deploymentLog := Some(log), status := Running, deployedAt := Some(now))
    {
      deploymentLog := Some(log);
      status := Running;
      deployedAt := Some(now);
    }

    /** `status = 'failed'` with the exception's text. */
    method MarkFailed(message: string)
      modifies this
      ensures Snapshot() == old(Snapshot()).(status := Failed, errorMessage := Some(message))
    {
      status := Failed;
      errorMessage := Some(message);
    }

    /** `updated_at = datetime.utcnow()`. */
    method Touch(now: int)
      modifies this
      ensures Snapshot() == old(Snapshot()).(updatedAt := Some(now))
    {
      updatedAt := Some(now);
    }

    /** `status = 'deleted'` with a new update instant. */
    method MarkDeleted(now: int)
      modifies this
      ensures Snapshot() == old(Snapshot()).(status := Deleted, updatedAt := Some(now))
    {
      status := Deleted;
      updatedAt := Some(now);
    }
  }
}
