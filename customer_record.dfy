/** One row of the telecom churn data set, as the customer-profile endpoint returns it and the
    profile view reads it. Every column is kept as its text; the numeric columns are not parsed. */
module CustomerRecord {

  datatype Customer = Customer(
    customerID: string,
    gender: string,
    seniorCitizen: string,
    partner: string,
    dependents: string,
    tenure: string,
    phoneService: string,
    multipleLines: string,
    internetService: string,
    onlineSecurity: string,
    onlineBackup: string,
    deviceProtection: string,
    techSupport: string,
    streamingTV: string,
    streamingMovies: string,
    contract: string,
    paperlessBilling: string,
    paymentMethod: string,
    monthlyCharges: string,
    totalCharges: string,
    churn: string)
}
