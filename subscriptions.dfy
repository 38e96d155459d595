/**
 * The subscription registry: one mailing list per discussion thread, at an
 * address derived from the repository owner, the repository and the entry
 * id, created on the first subscription and notified on each new reply.
 */
module Subscriptions {
  import opened Wrappers
  import opened Strings
  import Mail
  import Notifications

  /** The request parameters the registry reads. */
  datatype Parameters = Parameters(username: string, repository: string)

  /** The site configuration `send` reads its `name` from. */
  datatype SiteConfig = SiteConfig(name: Option<string>)

  /** The string that is hashed: "<username>-<repository>-<entryId>". */
  function CompoundKey(parameters: Parameters, entryId: string): string {
    parameters.username + "-" + parameters.repository + "-" + entryId
  }

  /**
   * The compound key joins its parts with "-" without escaping them, so two
   * different threads can share a key, and therefore a list: owner "a-b"
   * with repository "c", and owner "a" with repository "b-c".
   */
  lemma SharedCompoundKey(entryId: string)
    ensures Parameters("a-b", "c") != Parameters("a", "b-c")
    ensures CompoundKey(Parameters("a-b", "c"), entryId) == CompoundKey(Parameters("a", "b-c"), entryId)
  {
  }

  class SubscriptionsManager {
    const parameters: Parameters
    const mailAgent: Mail.MailAgent
    /** The mail domain the lists live under and messages are sent from. */
    const domain: string
    /** The hash the list address is derived with; nothing is assumed about it. */
    const md5: string -> string
    /** The configured sender address (`email.fromAddress`). */
    const fromAddress: string

    constructor (parameters: Parameters, mailAgent: Mail.MailAgent, domain: string,
                 md5: string -> string, fromAddress: string)
      ensures this.parameters == parameters && this.mailAgent == mailAgent && this.domain == domain
      ensures this.md5 == md5 && this.fromAddress == fromAddress
    {
      this.parameters := parameters;
      this.mailAgent := mailAgent;
      this.domain := domain;
      this.md5 := md5;
      this.fromAddress := fromAddress;
    }

    /**
     * `_getListAddress(entryId)`: the hash of the compound key, "@", and the
     * domain. The address always ends in "@" + domain, and the part before
     * that is exactly the hash, so the address is never empty.
     */
    function GetListAddress(entryId: string): (address: string)
      ensures EndsWith(address, "@" + domain)
      ensures address[..|address| - |domain| - 1] == md5(CompoundKey(parameters, entryId))
    {
      var hash := md5(CompoundKey(parameters, entryId));
      assert (hash + "@" + domain)[|hash|..] == "@" + domain;
      hash + "@" + domain
    }

    /** Two entries share a list address exactly when their compound keys hash alike. */
    lemma SameAddressIffSameHash(e1: string, e2: string)
      ensures GetListAddress(e1) == GetListAddress(e2)
          <==> md5(CompoundKey(parameters, e1)) == md5(CompoundKey(parameters, e2))
    {
    }

    /** `_get(entryId)`: the `address` field of the lookup of the derived address. */
    method Get(entryId: string) returns (list: Option<string>)
      requires mailAgent.Valid()
      modifies mailAgent
      ensures mailAgent.Valid()
      ensures mailAgent.lists == old(mailAgent.lists)
      ensures mailAgent.calls == old(mailAgent.calls) + [Mail.GetList(GetListAddress(entryId))]
      ensures list == if GetListAddress(entryId) in mailAgent.lists then Some(GetListAddress(entryId)) else None
    {
      var listAddress := GetListAddress(entryId);
      var data := mailAgent.ListsGet(listAddress);
      list := data.address;
    }

    /**
     * `send(entryId, fields, options, siteConfig)`: look the thread's list up
     * and, only when it exists, dispatch one notification to it, naming the
     * site after the configured `name`. No list is created or changed.
     */
    method Send(entryId: string, fields: Notifications.Fields, options: Notifications.Options,
                siteConfig: SiteConfig)
      requires mailAgent.Valid()
      modifies mailAgent
      ensures mailAgent.Valid()
      ensures mailAgent.lists == old(mailAgent.lists)
      ensures var address := GetListAddress(entryId);
        mailAgent.calls == old(mailAgent.calls) + [Mail.GetList(address)]
          + (if address in old(mailAgent.lists)
             then [Mail.CreateMessage(domain, Notifications.Envelope(fromAddress, address, fields, options,
                                                                     Notifications.SiteData(siteConfig.name)))]
             else [])
    {
      var list := Get(entryId);
      if Truthy(list) {
        var notifications := new Notifications.Notification(mailAgent, domain, fromAddress);
        notifications.Send(list.value, fields, options, Notifications.SiteData(siteConfig.name));
      }
    }

    /**
     * `set(entryId, email)`: look the list up, create it only when the
     * lookup found nothing, then add `email` as its member, always last.
     * Afterwards the list exists and holds `email`; every other list is as
     * it was, and no address has been created twice.
     */
    method Set(entryId: string, email: string)
      requires mailAgent.Valid()
      modifies mailAgent
      ensures mailAgent.Valid()
      ensures var address := GetListAddress(entryId);
        && mailAgent.calls == old(mailAgent.calls) + [Mail.GetList(address)]
             + (if address in old(mailAgent.lists) then [] else [Mail.CreateList(address)])
             + [Mail.CreateMember(address, email)]
        && mailAgent.lists == old(mailAgent.lists)[address :=
             (if address in old(mailAgent.lists) then old(mailAgent.lists)[address] else {}) + {email}]
      ensures GetListAddress(entryId) in mailAgent.lists && email in mailAgent.lists[GetListAddress(entryId)]
      ensures forall other :: other != GetListAddress(entryId) ==>
        (other in mailAgent.lists <==> other in old(mailAgent.lists))
        && (other in mailAgent.lists ==> mailAgent.lists[other] == old(mailAgent.lists)[other])
    {
      var listAddress := GetListAddress(entryId);
      var addressFound := Get(entryId);
      if !Truthy(addressFound) {
        mailAgent.ListsCreate(listAddress);
      }
      mailAgent.ListsCreateMember(listAddress, email);
    }
  }

  /**
   * Subscribing twice to the same thread issues at most one list creation:
   * the second lookup finds the list the first one made.
   */
  method SetTwice(manager: SubscriptionsManager, entryId: string, first: string, second: string)
    requires manager.mailAgent.Valid()
    modifies manager.mailAgent
    ensures manager.mailAgent.Valid()
    ensures var address := manager.GetListAddress(entryId);
      manager.mailAgent.calls == old(manager.mailAgent.calls) + [Mail.GetList(address)]
        + (if address in old(manager.mailAgent.lists) then [] else [Mail.CreateList(address)])
        + [Mail.CreateMember(address, first), Mail.GetList(address), Mail.CreateMember(address, second)]
  {
    manager.Set(entryId, first);
    manager.Set(entryId, second);
  }
}
