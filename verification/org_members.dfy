/**
 * The member management panel of src/components/org-members-management.tsx:
 * how the invite input is split into addresses, the role labels, which
 * controls are disabled, and the state the handlers update.
 */
module OrgMembers {
  import opened Wrappers
  import opened JsStrings

  const EmptyInviteMessage: string := "请输入邮箱地址"
  const InviteSentMessage: string := "🎉 邀请已发送"
  const InviteFailedMessage: string := "邀请失败"
  const RoleUpdateFailedMessage: string := "角色更新失败"
  const RemoveFailedMessage: string := "移除成员失败"

  /** One entry of the member list. */
  datatype Member = Member(userId: string, role: string, username: string, avatarUrl: string, email: string)

  /** `[,\s]`. */
  predicate IsInviteSeparator(c: char) {
    c == ',' || IsWhitespace(c)
  }

  /** `emailInput.split(/[,\s]+/)`, with no filtering of empty pieces. */
  function InviteEmails(input: string): (emails: seq<string>)
    ensures |emails| >= 1
  {
    SplitOnRuns(input, IsInviteSeparator)
  }

  /** The addresses hold no separator, and only the first and the last can be empty. */
  lemma {:induction false} InviteEmailsPieces(input: string)
    ensures forall k :: 0 <= k < |InviteEmails(input)| ==> Plain(InviteEmails(input)[k], IsInviteSeparator)
    ensures forall k :: 0 < k < |InviteEmails(input)| - 1 ==> InviteEmails(input)[k] != ""
  {
    SplitOnRunsPieces(input, IsInviteSeparator);
  }

  /** An input that starts (ends) with a separator gives an empty first (last) address. */
  lemma {:induction false} InviteEmailsEnds(input: string)
    ensures |input| > 0 && IsInviteSeparator(input[0]) ==> InviteEmails(input)[0] == ""
    ensures |input| > 0 && IsInviteSeparator(input[|input| - 1]) ==>
      InviteEmails(input)[|InviteEmails(input)| - 1] == ""
  {
    if |input| > 0 && IsInviteSeparator(input[0]) {
      SplitOnRunsLeading(input, IsInviteSeparator);
    }
    if |input| > 0 && IsInviteSeparator(input[|input| - 1]) {
      SplitOnRunsTrailing(input, IsInviteSeparator);
    }
  }

  /** Together the addresses hold every character of the input that is not a separator, in order. */
  lemma {:induction false} InviteEmailsKeepText(input: string)
    ensures Concat(InviteEmails(input)) == RemoveSeparators(input, IsInviteSeparator)
  {
    ConcatSplitOnRuns(input, IsInviteSeparator);
  }

  /** The role badge text. */
  function RoleLabel(role: string): (badge: string)
    ensures role == "OWNER" ==> badge == "拥有者"
    ensures role == "ADMIN" ==> badge == "管理员"
    ensures role != "OWNER" && role != "ADMIN" ==> badge == "成员"
  {
    if role == "OWNER" then "拥有者" else if role == "ADMIN" then "管理员" else "成员"
  }

  /** The remove button is disabled for a MEMBER viewer and for the owner's row. */
  predicate RemoveDisabled(curUserRole: string, memberRole: string) {
    curUserRole == "MEMBER" || memberRole == "OWNER"
  }

  /** The role select is disabled on the owner's row. */
  predicate RoleSelectDisabled(memberRole: string) {
    memberRole == "OWNER"
  }

  /** The OWNER option of the role select is always disabled. */
  predicate RoleOptionSelectable(option: string) {
    option != "OWNER"
  }

  /** A role change can be asked for through the select only on an enabled row and with a selectable option. */
  predicate RoleChangeOffered(memberRole: string, newRole: string) {
    !RoleSelectDisabled(memberRole) && RoleOptionSelectable(newRole)
  }

  /** Through the panel the owner is never demoted, removed, or given a successor. */
  lemma OwnerIsProtected(curUserRole: string, memberRole: string, newRole: string)
    ensures RoleChangeOffered(memberRole, newRole) ==> memberRole != "OWNER" && newRole != "OWNER"
    ensures !RemoveDisabled(curUserRole, memberRole) ==> memberRole != "OWNER" && curUserRole != "MEMBER"
  {
  }

  /** The body of the invite request. */
  datatype InviteRequest = InviteRequest(orgId: string, emails: seq<string>, role: string)

  /** A backend call made by a handler. */
  datatype MemberCall = UpdateRole(orgId: string, userId: string, role: string) | Remove(orgId: string, userId: string)

  /**
   * The panel's state. The panel sits in the management dialog, which the
   * switcher drops while the organisation list reloads, so a refresh
   * unmounts it: what comes back is a fresh panel.
   */
  class OrgMembersPage {
    const orgId: string
    var members: seq<Member>
    var emailInput: string
    var role: string
    var isLoading: bool
    var removeMemberDialogOpen: bool
    var removeMemberId: string

    /** The state of a freshly mounted panel. */
    predicate Fresh()
      reads this
    {
      && members == [] && emailInput == "" && role == "MEMBER" && isLoading
      && !removeMemberDialogOpen && removeMemberId == ""
    }

    constructor (orgId: string)
      ensures this.orgId == orgId && Fresh()
    {
      this.orgId := orgId;
      members := [];
      emailInput := "";
      role := "MEMBER";
      isLoading := true;
      removeMemberDialogOpen := false;
      removeMemberId := "";
    }

    /**
     * A refresh of the organisation list: the switcher shows only its loading
     * skeleton, the management dialog and this panel with it are unmounted,
     * and the panel mounts anew for the same organisation.
     */
    method Remount()
      modifies this
      ensures Fresh()
    {
      members := [];
      emailInput := "";
      role := "MEMBER";
      isLoading := true;
      removeMemberDialogOpen := false;
      removeMemberId := "";
    }

    /** The member-loading effect: keep the list the server returns, and stop loading either way. */
    method LoadMembers(response: Option<seq<Member>>)
      modifies this`members, this`isLoading
      ensures !isLoading
      ensures response.Some? ==> members == response.value
      ensures response.None? ==> members == old(members)
    {
      if response.Some? {
        members := response.value;
      }
      isLoading := false;
    }

    /**
     * `handleInvite`. An input of whitespace only warns and sends nothing;
     * otherwise the split addresses are posted with the chosen role. A
     * successful post clears the input and refreshes the list, which remounts
     * the panel; a failed post leaves the state as it was.
     */
    method HandleInvite(inviteSucceeded: bool, refreshSucceeded: bool) returns (request: Option<InviteRequest>, toast: string)
      modifies this
      ensures request.None? <==> forall k :: 0 <= k < |old(emailInput)| ==> IsWhitespace(old(emailInput)[k])
      ensures request.None? ==> toast == EmptyInviteMessage
      ensures request.Some? ==> request.value == InviteRequest(orgId, InviteEmails(old(emailInput)), old(role))
      ensures request.Some? && inviteSucceeded ==> Fresh()
      ensures request.None? || !inviteSucceeded ==>
        && members == old(members) && emailInput == old(emailInput) && role == old(role) && isLoading == old(isLoading)
        && removeMemberDialogOpen == old(removeMemberDialogOpen) && removeMemberId == old(removeMemberId)
      ensures request.Some? && !inviteSucceeded ==> toast == InviteFailedMessage
      ensures request.Some? ==> (toast == InviteSentMessage <==> inviteSucceeded && refreshSucceeded)
    {
      TrimEmpty(emailInput);
      if Trim(emailInput) == "" {
        return None, EmptyInviteMessage;
      }
      request := Some(InviteRequest(orgId, InviteEmails(emailInput), role));
      if !inviteSucceeded {
        return request, InviteFailedMessage;
      }
      emailInput := "";
      Remount();
      toast := if refreshSucceeded then InviteSentMessage else InviteFailedMessage;
    }

    /**
     * `updateMemberRole`: the call made; a successful change refreshes the
     * list, which remounts the panel, and a failed one shows an error toast
     * and changes nothing.
     */
    method UpdateMemberRole(userId: string, newRole: string, succeeded: bool) returns (call: MemberCall, toast: Option<string>)
      modifies this
      ensures call == UpdateRole(orgId, userId, newRole)
      ensures toast.None? <==> succeeded
      ensures toast.Some? ==> toast.value == RoleUpdateFailedMessage
      ensures succeeded ==> Fresh()
      ensures !succeeded ==>
        && members == old(members) && emailInput == old(emailInput) && role == old(role) && isLoading == old(isLoading)
        && removeMemberDialogOpen == old(removeMemberDialogOpen) && removeMemberId == old(removeMemberId)
    {
      call := UpdateRole(orgId, userId, newRole);
      toast := if succeeded then None else Some(RoleUpdateFailedMessage);
      if succeeded {
        Remount();
      }
    }

    /** The remove button of a row: remember the member and open the confirmation. */
    method AskRemove(userId: string)
      modifies this`removeMemberDialogOpen, this`removeMemberId
      ensures removeMemberDialogOpen && removeMemberId == userId
    {
      removeMemberDialogOpen := true;
      removeMemberId := userId;
    }

    /** The confirmation's destructive button: remove the remembered member and close the dialog. */
    method ConfirmRemove(succeeded: bool) returns (call: MemberCall, toast: Option<string>)
      modifies this`removeMemberDialogOpen
      ensures call == Remove(orgId, removeMemberId)
      ensures !removeMemberDialogOpen
      ensures toast.None? <==> succeeded
      ensures toast.Some? ==> toast.value == RemoveFailedMessage
    {
      call := Remove(orgId, removeMemberId);
      toast := if succeeded then None else Some(RemoveFailedMessage);
      removeMemberDialogOpen := false;
    }
  }
}
