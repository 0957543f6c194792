/** The values the application stores and edits. */
module Entities {

  datatype Option<T> = None | Some(value: T)

  /** One chip of the skills editor: a catalog name and a rating. */
  datatype Skill = Skill(name: string, rating: int)

  /** One row of the education editor; `completedYear` is the raw
      "YYYY-MM" value of the month input. */
  datatype Education = Education(school: string, course: string, completedYear: string)

  /** One stored company + employee record, as the submit handler builds it. */
  datatype Record = Record(
    id: string,
    companyName: string,
    companyAddress: string,
    companyEmail: string,
    companyPhone: string,
    employeeName: string,
    designation: string,
    joinDate: string,
    empEmail: string,
    empPhone: string,
    skills: seq<Skill>,
    education: seq<Education>,
    createdAt: string)

  /** The raw values of the nine text inputs of the form. */
  datatype Fields = Fields(
    companyName: string,
    companyAddress: string,
    companyEmail: string,
    companyPhone: string,
    employeeName: string,
    designation: string,
    joinDate: string,
    empEmail: string,
    empPhone: string)

  /** What `form.reset()` leaves in the text inputs. */
  const BlankFields := Fields("", "", "", "", "", "", "", "", "")
}
