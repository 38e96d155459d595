/**
 * The mail agent (a Mailgun client) that the subscription registry and
 * the notification composer talk to, as abstract state: the mailing lists
 * with their members, and the log of every call made to the agent, in
 * the order the calls were issued.
 */
module Mail {
  import opened Wrappers

  /** The body of a `messages.create` request. */
  datatype Message = Message(from: string, to: string, subject: string, html: string)

  /** One call into the agent's API. */
  datatype Call =
    | GetList(address: string)                       // lists.get(address)
    | CreateList(address: string)                    // lists.create({address})
    | CreateMember(address: string, member: string)  // lists.members.createMember(address, {address: member})
    | CreateMessage(domain: string, message: Message) // messages.create(domain, message)

  /** What `lists.get` resolves to: its `address` field is absent for a list that does not exist. */
  datatype ListInfo = ListInfo(address: Option<string>)

  class MailAgent {
    /** Each mailing list, by address, with the set of its member addresses. */
    var lists: map<string, set<string>>
    /** Every call issued to the agent so far, oldest first. */
    var calls: seq<Call>

    /**
     * The agent's consistency: a list, once created, keeps existing (there
     * is no delete), and no address was ever the subject of two creations.
     */
    ghost predicate Valid()
      reads this
    {
      && (forall i :: 0 <= i < |calls| && calls[i].CreateList? ==> calls[i].address in lists)
      && (forall i, j :: 0 <= i < j < |calls| && calls[i].CreateList? && calls[j].CreateList? ==>
            calls[i].address != calls[j].address)
    }

    /** An agent holding some lists made outside this process, before any call. */
    constructor (initial: map<string, set<string>>)
      ensures Valid()
      ensures lists == initial && calls == []
    {
      lists := initial;
      calls := [];
    }

    method ListsGet(address: string) returns (info: ListInfo)
      requires Valid()
      modifies this
      ensures Valid()
      ensures lists == old(lists)
      ensures calls == old(calls) + [GetList(address)]
      ensures info.address == if address in lists then Some(address) else None
    {
      calls := calls + [GetList(address)];
      info := if address in lists then ListInfo(Some(address)) else ListInfo(None);
    }

    /**
     * Creating a list that already exists leaves the lists as they are;
     * the agent stays consistent only when the address was new.
     */
    method ListsCreate(address: string)
      requires Valid()
      modifies this
      ensures address !in old(lists) ==> Valid()
      ensures lists == if address in old(lists) then old(lists) else old(lists)[address := {}]
      ensures calls == old(calls) + [CreateList(address)]
    {
      if address !in lists {
        lists := lists[address := {}];
      }
      calls := calls + [CreateList(address)];
    }

    /** Adding a member is idempotent; adding to a missing list changes nothing. */
    method ListsCreateMember(address: string, member: string)
      requires Valid()
      modifies this
      ensures Valid()
      ensures lists == if address in old(lists) then old(lists)[address := old(lists)[address] + {member}] else old(lists)
      ensures calls == old(calls) + [CreateMember(address, member)]
    {
      if address in lists {
        lists := lists[address := lists[address] + {member}];
      }
      calls := calls + [CreateMember(address, member)];
    }

    /** A dispatch is logged whether or not the transport accepts it; `ok` is the transport's verdict. */
    method MessagesCreate(domain: string, message: Message) returns (ok: bool)
      requires Valid()
      modifies this
      ensures Valid()
      ensures lists == old(lists)
      ensures calls == old(calls) + [CreateMessage(domain, message)]
    {
      calls := calls + [CreateMessage(domain, message)];
      ok :| true;
    }
  }
}
