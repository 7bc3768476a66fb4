/**
 * The organisation switcher of src/components/org-switcher.tsx: the current
 * organisation indicators, opening the management dialog, and the two-step
 * "create organisation, then invite members" dialog.
 */
module OrgSwitcher {
  import opened Wrappers
  import opened JsStrings
  import OrgMembers
  import OrgSettings

  const PersonalSpaceName: string := "个人空间"
  const CreateFailedMessage: string := "创建失败"
  const UploadFailedMessage: string := "上传失败"
  const InviteFailedMessage: string := "发送邀请失败"

  /** The fields of an organisation the switcher reads. */
  datatype Org = Org(id: string, name: string, slug: string, description: string, logoUrl: string)

  /** The current organisation of the context: absent, or one whose id may be null. */
  datatype CurrentOrg = CurrentOrg(id: Option<string>, name: string, logoUrl: string)

  /** `organizations.find(o => o.id === orgId)`. */
  function FindOrg(orgs: seq<Org>, orgId: string): (r: Option<Org>)
    ensures r.None? <==> forall k :: 0 <= k < |orgs| ==> orgs[k].id != orgId
    ensures r.Some? ==> r.value in orgs && r.value.id == orgId
    ensures r.Some? ==> exists k :: 0 <= k < |orgs| && orgs[k] == r.value && forall m :: 0 <= m < k ==> orgs[m].id != orgId
  {
    if |orgs| == 0 then None
    else if orgs[0].id == orgId then Some(orgs[0])
    else
      var r := FindOrg(orgs[1..], orgId);
      if r.Some? then
        assert forall m :: 1 <= m < |orgs| ==> orgs[m] == orgs[1..][m - 1];
        Some(r.value)
      else None
  }

  /** The green dot beside "personal space". */
  predicate PersonalSpaceActive(current: Option<CurrentOrg>) {
    current.None? || current.value.id.None?
  }

  /** The green dot on an organisation's row. */
  predicate OrgRowActive(current: Option<CurrentOrg>, org: Org) {
    current.Some? && current.value.id == Some(org.id)
  }

  /** The text of the trigger button: the current organisation's name, or "personal space" when there is none or it is empty. */
  function TriggerLabel(current: Option<CurrentOrg>): (text: string)
    ensures current.None? ==> text == PersonalSpaceName
    ensures current.Some? && current.value.name != "" ==> text == current.value.name
    ensures text != ""
  {
    if current.Some? && current.value.name != "" then current.value.name else PersonalSpaceName
  }

  /** At most one green dot shows: the personal one excludes every row's, and rows with different ids exclude each other. */
  lemma OneActiveIndicator(current: Option<CurrentOrg>, a: Org, b: Org)
    ensures PersonalSpaceActive(current) ==> !OrgRowActive(current, a)
    ensures OrgRowActive(current, a) && OrgRowActive(current, b) ==> a.id == b.id
    ensures !PersonalSpaceActive(current) ==> OrgRowActive(current, Org(current.value.id.value, "", "", "", ""))
  {
  }

  /** `emails.split(/[,\s]+/).filter(Boolean)`. */
  function InviteList(emails: string): (list: seq<string>)
    ensures forall k :: 0 <= k < |list| ==> list[k] != ""
  {
    NonEmpty(OrgMembers.InviteEmails(emails))
  }

  /**
   * Unlike the member panel, the dialog drops empty pieces: every address is
   * non-empty and free of separators, and together they hold every other
   * character of the input, in order.
   */
  lemma InviteListShape(emails: string)
    ensures forall k :: 0 <= k < |InviteList(emails)| ==> Plain(InviteList(emails)[k], OrgMembers.IsInviteSeparator)
    ensures Concat(InviteList(emails)) == RemoveSeparators(emails, OrgMembers.IsInviteSeparator)
    ensures forall x :: x in InviteList(emails) <==> x in OrgMembers.InviteEmails(emails) && x != ""
    ensures multiset(InviteList(emails)) == multiset(OrgMembers.InviteEmails(emails))["" := 0]
  {
    var pieces := OrgMembers.InviteEmails(emails);
    NonEmptyKeeps(pieces);
    OrgMembers.InviteEmailsPieces(emails);
    forall k | 0 <= k < |InviteList(emails)|
      ensures Plain(InviteList(emails)[k], OrgMembers.IsInviteSeparator)
    {
      var x := InviteList(emails)[k];
      assert x in pieces;
      var m :| 0 <= m < |pieces| && pieces[m] == x;
    }
    OrgMembers.InviteEmailsKeepText(emails);
    ConcatNonEmpty(pieces);
  }

  /** An input that holds only separators gives an empty list. */
  lemma InviteListOfSeparators(emails: string)
    requires forall k :: 0 <= k < |emails| ==> OrgMembers.IsInviteSeparator(emails[k])
    ensures InviteList(emails) == []
  {
    InviteListShape(emails);
    RemoveSeparatorsOfSeparators(emails, OrgMembers.IsInviteSeparator);
  }

  /** The create form passes validation: a name, and a slug matching `/^[a-z0-9-]+$/`; both are required. */
  predicate CreateFormValid(name: string, slug: string) {
    name != "" && slug != "" && OrgSettings.MatchesSlugPattern(slug)
  }

  /** Unlike the settings form, the create form refuses an empty slug. */
  lemma CreateSlugRequired(name: string)
    ensures !CreateFormValid(name, "")
    ensures OrgSettings.SettingsSlugValid("")
  {
  }

  /** The body of `POST /org/create`. */
  datatype CreateRequest = CreateRequest(name: string, slug: string, description: string, logoUrl: Option<string>)

  /** The body sent for the form values: an empty logo URL is sent as `null`. */
  function CreateRequestFor(values: Org): (req: CreateRequest)
    ensures req.name == values.name && req.slug == values.slug && req.description == values.description
    ensures req.logoUrl.None? <==> values.logoUrl == ""
    ensures req.logoUrl.Some? ==> req.logoUrl.value == values.logoUrl
  {
    CreateRequest(values.name, values.slug, values.description, if values.logoUrl == "" then None else Some(values.logoUrl))
  }

  /** The steps of the create dialog. */
  datatype Step = Create | Invite

  /** A call the invite dialog makes, in the order made. */
  datatype Effect = RefreshOrgs | SwitchOrg(orgId: string) | AlertNoEmails | PostInvite(orgId: string, emails: seq<string>, role: string)

  /** The switcher's own state. */
  class OrgSwitcherState {
    const organizations: seq<Org>
    var managedOrg: Option<Org>

    constructor (organizations: seq<Org>)
      ensures this.organizations == organizations && managedOrg.None?
    {
      this.organizations := organizations;
      managedOrg := None;
    }

    /** `handleManageOrg`: open the dialog on the first organisation with that id, or change nothing. */
    method HandleManageOrg(orgId: string)
      modifies this`managedOrg
      ensures FindOrg(organizations, orgId).Some? ==> managedOrg == FindOrg(organizations, orgId)
      ensures FindOrg(organizations, orgId).None? ==> managedOrg == old(managedOrg)
    {
      var org := FindOrg(organizations, orgId);
      if org.Some? {
        managedOrg := org;
      }
    }

    /** The management dialog closing. */
    method CloseManagedOrg()
      modifies this`managedOrg
      ensures managedOrg.None?
    {
      managedOrg := None;
    }
  }

  /**
   * The create dialog's state. The form is a component declared inside the
   * switcher, and the switcher shows only a skeleton while the organisation
   * list reloads, so every refresh unmounts the form: what comes back is a
   * fresh form, and the dialog with it is gone.
   */
  class CreateOrgForm {
    var step: Step
    var newOrgId: Option<string>
    var isUploading: bool
    var previewUrl: Option<string>
    var logoUrl: string

    /** The invite step is only reached with the new organisation's id. */
    ghost predicate Valid()
      reads this
    {
      step == Invite ==> newOrgId.Some?
    }

    /** The state of a freshly mounted form. */
    predicate Fresh()
      reads this
    {
      step == Create && newOrgId.None? && !isUploading && previewUrl.None? && logoUrl == ""
    }

    constructor ()
      ensures Fresh() && Valid()
    {
      step := Create;
      newOrgId := None;
      isUploading := false;
      previewUrl := None;
      logoUrl := "";
    }

    /** The invite form is shown exactly on the invite step. */
    predicate ShowsInviteForm()
      reads this
    {
      step == Invite && newOrgId.Some?
    }

    /** A refresh of the organisation list: the switcher's loading skeleton replaces the form, which then mounts anew. */
    method Remount()
      modifies this
      ensures Fresh() && Valid() && !ShowsInviteForm()
    {
      step := Create;
      newOrgId := None;
      isUploading := false;
      previewUrl := None;
      logoUrl := "";
    }

    /** `handleFileUpload`: show a preview, upload, and keep the returned URL as the logo. */
    method HandleFileUpload(response: Option<string>) returns (toast: Option<string>)
      modifies this`isUploading, this`previewUrl, this`logoUrl
      ensures !isUploading && previewUrl.Some?
      ensures response.Some? ==> logoUrl == response.value && toast.None?
      ensures response.None? ==> logoUrl == old(logoUrl) && toast == Some(UploadFailedMessage)
    {
      isUploading := true;
      previewUrl := Some("blob:preview");
      if response.Some? {
        logoUrl := response.value;
        toast := None;
      } else {
        toast := Some(UploadFailedMessage);
      }
      isUploading := false;
    }

    /**
     * `onSubmit`: post the organisation; the id in the response moves the
     * dialog to the invite step, a failure stays on the create step.
     */
    method OnSubmit(values: Org, createdId: Option<string>) returns (request: CreateRequest, toast: Option<string>)
      requires Valid()
      modifies this`newOrgId, this`step
      ensures Valid()
      ensures request == CreateRequestFor(values)
      ensures createdId.Some? ==> newOrgId == createdId && step == Invite && toast.None? && ShowsInviteForm()
      ensures createdId.None? ==> newOrgId == old(newOrgId) && step == old(step) && toast == Some(CreateFailedMessage)
    {
      request := CreateRequestFor(values);
      if createdId.Some? {
        newOrgId := createdId;
        step := Invite;
        toast := None;
      } else {
        toast := Some(CreateFailedMessage);
      }
    }

    /** The dialog closing: drop the preview and refresh the list, which remounts the form. */
    method Close() returns (effects: seq<Effect>)
      modifies this
      ensures effects == [RefreshOrgs]
      ensures Fresh() && Valid()
    {
      previewUrl := None;
      effects := [RefreshOrgs];
      Remount();
    }
  }

  /** The invite step's own state; `parent` is the create form that shows it. */
  class InviteMembersForm {
    const orgId: string
    const parent: CreateOrgForm
    var emails: string
    var role: string
    var isSending: bool

    constructor (orgId: string, parent: CreateOrgForm)
      ensures this.orgId == orgId && this.parent == parent && emails == "" && role == "MEMBER" && !isSending
    {
      this.orgId := orgId;
      this.parent := parent;
      emails := "";
      role := "MEMBER";
      isSending := false;
    }

    /** The send button is disabled while sending or while the input is empty. */
    predicate SendDisabled()
      reads this
    {
      isSending || emails == ""
    }

    /**
     * `handleSendInvites`: refresh and switch to the new organisation first,
     * whatever the input. The refresh already remounts the create form. A
     * failing switch ends the handler there. Then an empty input only alerts;
     * otherwise the address list is posted. `failure` is `None` when the post
     * succeeds, otherwise the error's message, shown after a fixed toast.
     */
    method HandleSendInvites(switchFailed: bool, failure: Option<string>) returns (effects: seq<Effect>, toasts: seq<string>)
      modifies this`isSending, parent
      ensures parent.Fresh() && !parent.ShowsInviteForm()
      ensures |effects| >= 2 && effects[..2] == [RefreshOrgs, SwitchOrg(orgId)]
      ensures switchFailed ==> |effects| == 2 && toasts == [] && isSending == old(isSending)
      ensures !switchFailed ==> |effects| == 3
      ensures !switchFailed && emails == "" ==> effects[2] == AlertNoEmails && toasts == [] && isSending == old(isSending)
      ensures !switchFailed && emails != "" ==> effects[2] == PostInvite(orgId, InviteList(emails), role) && !isSending
      ensures !switchFailed && emails != "" && failure.None? ==> toasts == []
      ensures !switchFailed && emails != "" && failure.Some? ==> toasts == [InviteFailedMessage, failure.value]
    {
      effects := [RefreshOrgs];
      parent.Remount();
      effects := effects + [SwitchOrg(orgId)];
      toasts := [];
      if switchFailed {
        return;
      }
      if emails == "" {
        effects := effects + [AlertNoEmails];
        return;
      }
      isSending := true;
      effects := effects + [PostInvite(orgId, InviteList(emails), role)];
      if failure.Some? {
        toasts := [InviteFailedMessage, failure.value];
      }
      isSending := false;
    }

    /** The skip button: refresh, which remounts the create form, then switch to the new organisation. */
    method Skip() returns (effects: seq<Effect>)
      modifies parent
      ensures effects == [RefreshOrgs, SwitchOrg(orgId)]
      ensures parent.Fresh() && !parent.ShowsInviteForm()
    {
      effects := [RefreshOrgs];
      parent.Remount();
      effects := effects + [SwitchOrg(orgId)];
    }
  }
}
