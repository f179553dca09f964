/** alpaca's IAM administration: the builder role with its one inline
    policy, created role-first and deleted policy-first.

    Every operation takes the role's names and documents as a template that
    defaults to alpaca's fixed ones; alppb's workflow passes its own. */
module AlpacaIam {
  import opened Wrappers
  import opened Aws

  const ROLE_NAME := "alpacaBuilderRole"
  const POLICY_NAME := "alpacaBuilderPolicy"
  const DESCRIPTION := "This role is used by https://github.com/irlrobot/alpaca"

  /** The fixed names and documents of a builder role and its inline policy. */
  datatype RoleTemplate = RoleTemplate(
    roleName: string, policyName: string, trust: Document, policy: Document, description: string)

  /** alpaca's role: the trust and permission documents are constants, so
      nothing the caller passes reaches the policy. */
  const ALPACA_ROLE := RoleTemplate(ROLE_NAME, POLICY_NAME, AlpacaTrustPolicy, AlpacaBuilderPolicy, DESCRIPTION)

  /** The role as `create_role` leaves it: exactly one inline policy. */
  function ProvisionedRole(arn: string, t: RoleTemplate): Role {
    Role(arn, t.trust, t.description, map[t.policyName := t.policy])
  }

  /** Create the role, and only once that succeeded attach its policy;
      return the new role's ARN.  An existing role is not reused. */
  method CreateRole(acct: Account, t: RoleTemplate := ALPACA_ROLE) returns (r: Result<string, ApiError>)
    modifies acct`roles, acct`calls
    ensures t.roleName in old(acct.roles) ==>
      && r == Failure(EntityAlreadyExists(t.roleName))
      && acct.roles == old(acct.roles)
      && acct.calls == old(acct.calls) + [Call.CreateRole(t.roleName, t.trust)]
    ensures t.roleName !in old(acct.roles) ==>
      && r == Success(acct.RoleArn(t.roleName))
      && acct.roles == old(acct.roles)[t.roleName := ProvisionedRole(acct.RoleArn(t.roleName), t)]
      && acct.calls == old(acct.calls) + [Call.CreateRole(t.roleName, t.trust),
                                          Call.PutRolePolicy(t.roleName, t.policyName, t.policy)]
  {
    var response := acct.CreateRole(t.roleName, t.trust, t.description);
    if response.Failure? {
      return response;
    }
    var attached := AddRolePolicy(acct, t);
    r := Success(response.value);
  }

  /** Put the one inline policy on the role. */
  method AddRolePolicy(acct: Account, t: RoleTemplate := ALPACA_ROLE) returns (o: Outcome<ApiError>)
    modifies acct`roles, acct`calls
    ensures acct.calls == old(acct.calls) + [Call.PutRolePolicy(t.roleName, t.policyName, t.policy)]
    ensures t.roleName !in old(acct.roles) ==> o == Fail(NoSuchEntity(t.roleName)) && acct.roles == old(acct.roles)
    ensures t.roleName in old(acct.roles) ==>
      var role := old(acct.roles)[t.roleName];
      o == Pass && acct.roles == old(acct.roles)[t.roleName := role.(policies := role.policies[t.policyName := t.policy])]
  {
    o := acct.PutRolePolicy(t.roleName, t.policyName, t.policy);
  }

  /** Delete the inline policy, then the role; a failing step raises and
      stops the sequence. */
  method DeleteRole(acct: Account, t: RoleTemplate := ALPACA_ROLE) returns (o: Outcome<ApiError>)
    modifies acct`roles, acct`calls
    ensures t.roleName !in old(acct.roles) ==>
      && o == Fail(NoSuchEntity(t.roleName)) && acct.roles == old(acct.roles)
      && acct.calls == old(acct.calls) + [Call.DeleteRolePolicy(t.roleName, t.policyName)]
    ensures t.roleName in old(acct.roles) && t.policyName !in old(acct.roles)[t.roleName].policies ==>
      && o == Fail(NoSuchEntity(t.policyName)) && acct.roles == old(acct.roles)
      && acct.calls == old(acct.calls) + [Call.DeleteRolePolicy(t.roleName, t.policyName)]
    ensures t.roleName in old(acct.roles) && t.policyName in old(acct.roles)[t.roleName].policies ==>
      var role := old(acct.roles)[t.roleName];
      && acct.calls == old(acct.calls) + [Call.DeleteRolePolicy(t.roleName, t.policyName), Call.DeleteRole(t.roleName)]
      && (role.policies.Keys == {t.policyName} ==> o == Pass && acct.roles == old(acct.roles) - {t.roleName})
      && (role.policies.Keys != {t.policyName} ==>
            && o == Fail(DeleteConflict(t.roleName))
            && acct.roles == old(acct.roles)[t.roleName := role.(policies := role.policies - {t.policyName})])
  {
    var detached := acct.DeleteRolePolicy(t.roleName, t.policyName);
    if detached.Fail? {
      return detached;
    }
    ghost var left := acct.roles[t.roleName].policies;
    assert left.Keys == old(acct.roles)[t.roleName].policies.Keys - {t.policyName};
    assert left == map[] <==> left.Keys == {};
    o := acct.DeleteRole(t.roleName);
  }

  /** From an account without the role, creating it and deleting it again
      leaves IAM exactly as it was. */
  method CreateThenDeleteRole(acct: Account, t: RoleTemplate := ALPACA_ROLE) returns (arn: Result<string, ApiError>, deleted: Outcome<ApiError>)
    requires t.roleName !in acct.roles
    modifies acct`roles, acct`calls
    ensures arn == Success(acct.RoleArn(t.roleName)) && deleted == Pass
    ensures acct.roles == old(acct.roles)
    ensures acct.calls == old(acct.calls) + [Call.CreateRole(t.roleName, t.trust),
                                             Call.PutRolePolicy(t.roleName, t.policyName, t.policy),
                                             Call.DeleteRolePolicy(t.roleName, t.policyName),
                                             Call.DeleteRole(t.roleName)]
  {
    arn := CreateRole(acct, t);
    deleted := DeleteRole(acct, t);
    assert map[t.policyName := t.policy].Keys == {t.policyName};
  }
}
