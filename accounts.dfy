/** The requesting user as Django's authentication layer hands it to a view:
    `AnonymousUser` or a row of `auth.User`. */
module Accounts {
  import opened Common
  import opened Text

  datatype User =
    | Anonymous
    | Member(id: UserId, isStaff: bool, firstName: string, lastName: string, username: string)
  {
    /** `user.is_staff`; `AnonymousUser.is_staff` is `False`. */
    predicate IsStaff() {
      Member? && isStaff
    }

    /** `User.get_full_name()`: first and last name joined by a space, with
        surrounding white space removed. `AnonymousUser` has no such method. */
    function FullName(): (r: string)
      requires Member?
      ensures |r| <= |firstName| + 1 + |lastName|
      ensures firstName == "" && lastName == "" ==> r == ""
    {
      Strip(firstName + " " + lastName, PySpace)
    }

    /** `get_full_name() or username`, as the scanner's confirmation reports it. */
    function DisplayName(): (r: string)
      requires Member?
      ensures r == "" ==> username == ""
    {
      var full := FullName();
      if full != "" then full else username
    }
  }

  /** Two plain names give their concatenation with one space between. */
  lemma FullNameOfPlainNames(u: User)
    requires u.Member? && u.firstName != "" && u.lastName != ""
    requires NoneIn(u.firstName, PySpace) && NoneIn(u.lastName, PySpace)
    ensures u.FullName() == u.firstName + " " + u.lastName
  {
    var s := u.firstName + " " + u.lastName;
    assert s[0] == u.firstName[0] && s[|s| - 1] == u.lastName[|u.lastName| - 1];
    StripKeepsInnerSpace(s, PySpace);
  }
}
