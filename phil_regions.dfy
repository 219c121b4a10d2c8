/** The four record shapes of the Philippine address reference tables: each
  * entry has its own code, its parent's code and a display name. */
module PhilRegions {
  import opened Wrappers

  datatype Region = Region(reg_code: string, name: string, region_name: Option<string>)

  datatype Province = Province(prov_code: string, reg_code: string, name: string)

  datatype Municipality = Municipality(mun_code: string, prov_code: string, name: string)

  datatype Barangay = Barangay(brgy_code: string, mun_code: string, name: string)
}
